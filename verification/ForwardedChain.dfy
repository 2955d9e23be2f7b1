/**
 * The forwarded chain and the walk over it (rate-limiting/rate-limit-discriminator.ts), for any
 * notion of an address and of a trusted proxy.
 */
module ForwardedChain {
  import opened Common
  import opened Text

  /** How an entry is read: whether it is an address, what it is normalized to, and who is trusted. */
  datatype Reader = Reader(isAddress: string -> bool, name: string -> string, isTrusted: string -> bool)

  /** The entries exactly as written; an absent or blank header has none. */
  function Chain(header: Option<string>): seq<string> {
    if header.None? || |Trim(header.value)| == 0 then [] else TrimAll(Split(header.value, ','))
  }

  function TrimAll(pieces: seq<string>): (entries: seq<string>)
    ensures |entries| == |pieces|
    ensures forall i :: 0 <= i < |pieces| ==> entries[i] == Trim(pieces[i])
  {
    seq(|pieces|, i requires 0 <= i < |pieces| => Trim(pieces[i]))
  }

  /** The last `hops` entries. */
  function Window<T>(chain: seq<T>, hops: nat): seq<T> {
    if |chain| <= hops then chain else chain[|chain| - hops..]
  }

  predicate IsUntrustedAddress(r: Reader, entry: string) {
    r.isAddress(entry) && !r.isTrusted(r.name(entry))
  }

  /** The rightmost entry that is an address and no trusted proxy. */
  function RightmostUntrusted(r: Reader, entries: seq<string>): Option<string> {
    if |entries| == 0 then None
    else if IsUntrustedAddress(r, entries[|entries| - 1]) then Some(r.name(entries[|entries| - 1]))
    else RightmostUntrusted(r, entries[..|entries| - 1])
  }

  /** It is there exactly when some entry is untrusted, and it is the last of those. */
  lemma {:induction false} RightmostUntrustedIs(r: Reader, entries: seq<string>, i: nat)
    requires i < |entries|
    requires forall j :: i < j < |entries| ==> !IsUntrustedAddress(r, entries[j])
    ensures IsUntrustedAddress(r, entries[i]) ==> RightmostUntrusted(r, entries) == Some(r.name(entries[i]))
    ensures i == 0 && !IsUntrustedAddress(r, entries[i]) ==> RightmostUntrusted(r, entries) == None
  {
    if i < |entries| - 1 {
      RightmostUntrustedIs(r, entries[..|entries| - 1], i);
    }
  }

  /** What the walk answers: that entry, else the leftmost inspected one, else nothing. */
  function Walk(r: Reader, inspected: seq<string>): string
    requires |inspected| > 0
  {
    var found := RightmostUntrusted(r, inspected);
    if found.Some? then found.value
    else if r.isAddress(inspected[0]) then r.name(inspected[0])
    else ""
  }

  /** The walk from right to left. */
  method WalkChain(r: Reader, inspected: seq<string>) returns (identity: string)
    requires |inspected| > 0
    ensures identity == Walk(r, inspected)
  {
    var index := |inspected|;
    assert inspected[..index] == inspected;
    while index > 0
      invariant 0 <= index <= |inspected|
      invariant RightmostUntrusted(r, inspected) == RightmostUntrusted(r, inspected[..index])
    {
      index := index - 1;
      var entry := inspected[index];
      assert inspected[..index + 1][..index] == inspected[..index];
      if !r.isAddress(entry) {
        continue;
      }
      var candidate := r.name(entry);
      if !r.isTrusted(candidate) {
        return candidate;
      }
    }
    var leftmost := inspected[0];
    identity := if r.isAddress(leftmost) then r.name(leftmost) else "";
  }

  /** Whether the forwarded header is read: a trusted peer, and an address where its proxy appended one. */
  predicate ReadsChain(r: Reader, peer: string, chain: seq<string>) {
    r.isTrusted(r.name(peer)) && |chain| > 0 && r.isAddress(chain[|chain| - 1])
  }

  /** `configured`: there is an allowlist. */
  function ResolveChain(r: Reader, configured: bool, peer: string, chain: seq<string>, hops: int): string {
    if hops > 0 && configured && ReadsChain(r, peer, chain) then Walk(r, Window(chain, hops)) else r.name(peer)
  }

  function Resolve(r: Reader, configured: bool, peer: string, header: Option<string>, hops: int): string {
    ResolveChain(r, configured, peer, Chain(header), hops)
  }

  method ResolveClientIdentity(r: Reader, configured: bool, socketPeer: string, header: Option<string>, hops: int)
    returns (identity: string)
    ensures identity == Resolve(r, configured, socketPeer, header, hops)
  {
    var peer := r.name(socketPeer);
    if hops <= 0 || !configured {
      return peer;
    }
    if !r.isTrusted(peer) {
      return peer;
    }
    var chain := Chain(header);
    if |chain| == 0 {
      return peer;
    }
    if !r.isAddress(chain[|chain| - 1]) {
      return peer;
    }
    identity := WalkChain(r, Window(chain, hops));
  }

  // ---------------------------------------------------------------------------------------------
  // Padding
  // ---------------------------------------------------------------------------------------------

  lemma {:induction false} SplitConcat(a: string, b: string, separator: char)
    ensures Split(a + [separator] + b, separator) == Split(a, separator) + Split(b, separator)
  {
    var s := a + [separator] + b;
    if |a| == 0 {
      assert s[1..] == b;
    } else {
      assert s[1..] == a[1..] + [separator] + b;
      SplitConcat(a[1..], b, separator);
    }
  }

  lemma {:induction false} TrimKeepsInk(s: string, i: nat)
    requires i < |s| && !IsSpace(s[i])
    ensures |Trim(s)| > 0
    decreases |s|
  {
    if IsSpace(s[0]) {
      TrimKeepsInk(s[1..], i - 1);
    } else if IsSpace(s[|s| - 1]) {
      TrimKeepsInk(s[..|s| - 1], i);
    }
  }

  lemma TrimAllConcat(a: seq<string>, b: seq<string>)
    ensures TrimAll(a + b) == TrimAll(a) + TrimAll(b)
  {
    forall i | 0 <= i < |a + b|
      ensures TrimAll(a + b)[i] == (TrimAll(a) + TrimAll(b))[i]
    {
      assert (a + b)[i] == if i < |a| then a[i] else b[i - |a|];
    }
  }

  /** Whatever is written in front of a header only puts entries in front of its chain. */
  lemma PaddedChain(padding: string, header: string) returns (entries: seq<string>)
    requires |Chain(Some(header))| > 0
    ensures Chain(Some(padding + "," + header)) == entries + Chain(Some(header))
  {
    var padded := padding + [','] + header;
    assert padding + "," + header == padded;
    TrimKeepsInk(padded, |padding|);
    SplitConcat(padding, header, ',');
    TrimAllConcat(Split(padding, ','), Split(header, ','));
    entries := TrimAll(Split(padding, ','));
  }

  /** Entries further left do not change what the walk finds. */
  lemma {:induction false} LeftIsIgnored(r: Reader, left: seq<string>, entries: seq<string>)
    requires RightmostUntrusted(r, entries).Some?
    ensures RightmostUntrusted(r, left + entries) == RightmostUntrusted(r, entries)
  {
    if |entries| > 0 && !IsUntrustedAddress(r, entries[|entries| - 1]) {
      FrontOfConcat(left, entries);
      LeftIsIgnored(r, left, entries[..|entries| - 1]);
    }
  }

  lemma FrontOfConcat<T>(left: seq<T>, entries: seq<T>)
    requires |entries| > 0
    ensures var all := left + entries; all[..|all| - 1] == left + entries[..|entries| - 1]
  {
  }

  lemma DropPart<T>(entries: seq<T>, chain: seq<T>, k: nat)
    requires k <= |entries|
    ensures (entries + chain)[k..] == entries[k..] + chain
  {
  }

  lemma DropMore<T>(entries: seq<T>, chain: seq<T>, k: nat)
    requires k <= |chain|
    ensures (entries + chain)[|entries| + k..] == chain[k..]
  {
  }

  /** The window of a padded chain is the old one with some of the padding in front. */
  lemma WindowGrows<T>(entries: seq<T>, chain: seq<T>, hops: nat) returns (left: seq<T>)
    requires hops > 0
    ensures Window(entries + chain, hops) == left + Window(chain, hops)
  {
    if |entries| + |chain| <= hops {
      left := entries;
    } else if |chain| <= hops {
      var k := |entries| + |chain| - hops;
      left := entries[k..];
      DropPart(entries, chain, k);
      assert Window(entries + chain, hops) == (entries + chain)[k..];
    } else {
      left := [];
      var k := |chain| - hops;
      DropMore(entries, chain, k);
      assert Window(entries + chain, hops) == (entries + chain)[|entries| + k..];
      assert left + Window(chain, hops) == Window(chain, hops);
    }
  }

  lemma PaddingKeepsTheWalk(r: Reader, entries: seq<string>, chain: seq<string>, hops: nat)
    requires hops > 0 && |chain| > 0 && RightmostUntrusted(r, Window(chain, hops)).Some?
    ensures Walk(r, Window(entries + chain, hops)) == Walk(r, Window(chain, hops))
  {
    var left := WindowGrows(entries, chain, hops);
    LeftIsIgnored(r, left, Window(chain, hops));
  }

  lemma PaddedResolve(r: Reader, configured: bool, peer: string, entries: seq<string>, chain: seq<string>, hops: int)
    requires hops > 0 && |chain| > 0 && RightmostUntrusted(r, Window(chain, hops)).Some?
    ensures ResolveChain(r, configured, peer, entries + chain, hops) == ResolveChain(r, configured, peer, chain, hops)
  {
    PaddingKeepsTheWalk(r, entries, chain, hops);
    assert (entries + chain)[|entries + chain| - 1] == chain[|chain| - 1];
  }

  /**
   * A client can only add entries to the left of the one its proxy appended. As soon as the last
   * `hops` entries hold an address outside the allowlist, nothing it adds changes the answer.
   */
  lemma PaddingChangesNothing(r: Reader, configured: bool, peer: string, padding: string, header: string, hops: int)
    requires hops > 0 && RightmostUntrusted(r, Window(Chain(Some(header)), hops)).Some?
    ensures Resolve(r, configured, peer, Some(padding + "," + header), hops) == Resolve(r, configured, peer, Some(header), hops)
  {
    var chain := Chain(Some(header));
    var entries := PaddedChain(padding, header);
    PaddedResolve(r, configured, peer, entries, chain, hops);
  }

  // ---------------------------------------------------------------------------------------------
  // The answer by position
  // ---------------------------------------------------------------------------------------------

  /** Without a trusted peer in front, or an address in its place, the peer is the client. */
  lemma PeerAnswers(r: Reader, configured: bool, peer: string, chain: seq<string>, hops: int)
    requires hops <= 0 || !configured || !r.isTrusted(r.name(peer)) || |chain| == 0 || !r.isAddress(chain[|chain| - 1])
    ensures ResolveChain(r, configured, peer, chain, hops) == r.name(peer)
  {
  }

  /** Where the walk has to stop at the latest: `hops` entries from the right, or at the first one. */
  function Leftmost(chain: seq<string>, hops: int): int {
    if |chain| <= hops then 0 else |chain| - hops
  }

  lemma WalkByPosition(r: Reader, chain: seq<string>, hops: int, i: int)
    requires hops > 0 && |chain| > 0 && Leftmost(chain, hops) <= i < |chain|
    requires forall j :: i < j < |chain| ==> !IsUntrustedAddress(r, chain[j])
    ensures IsUntrustedAddress(r, chain[i]) ==> Walk(r, Window(chain, hops)) == r.name(chain[i])
    ensures i == Leftmost(chain, hops) && !IsUntrustedAddress(r, chain[i]) ==>
              Walk(r, Window(chain, hops)) == if r.isAddress(chain[i]) then r.name(chain[i]) else ""
  {
    var (window, k) := (Window(chain, hops), i - Leftmost(chain, hops));
    assert forall j :: 0 <= j < |window| ==> window[j] == chain[j + Leftmost(chain, hops)];
    RightmostUntrustedIs(r, window, k);
  }

  /**
   * The answer when the chain is read, by position alone. No entry further left than `hops` from
   * the right is looked at: the answer is the rightmost address outside the allowlist among the last
   * `hops` entries; without one it is the leftmost of those, or nothing when that is no address.
   */
  lemma AnswerByPosition(r: Reader, peer: string, chain: seq<string>, hops: int, i: int)
    requires hops > 0 && r.isTrusted(r.name(peer)) && |chain| > 0 && r.isAddress(chain[|chain| - 1])
    requires |chain| - hops <= i && 0 <= i < |chain|
    requires forall j :: i < j < |chain| ==> !(r.isAddress(chain[j]) && !r.isTrusted(r.name(chain[j])))
    ensures r.isAddress(chain[i]) && !r.isTrusted(r.name(chain[i])) ==> ResolveChain(r, true, peer, chain, hops) == r.name(chain[i])
    ensures (i == |chain| - hops || (i == 0 && |chain| <= hops)) && r.isAddress(chain[i]) ==>
              ResolveChain(r, true, peer, chain, hops) == r.name(chain[i])
    ensures (i == |chain| - hops || (i == 0 && |chain| <= hops)) && !r.isAddress(chain[i]) ==>
              ResolveChain(r, true, peer, chain, hops) == ""
  {
    WalkByPosition(r, chain, hops, i);
  }

  /** Only the last `hops` entries count: two chains that agree on them get one answer, trusted or not. */
  lemma OnlyTheLastHopsCount(r: Reader, configured: bool, peer: string, a: seq<string>, b: seq<string>, hops: int)
    requires 0 < hops <= |a| && hops <= |b|
    requires a[|a| - hops..] == b[|b| - hops..]
    ensures ResolveChain(r, configured, peer, a, hops) == ResolveChain(r, configured, peer, b, hops)
  {
    assert a[|a| - hops..][hops - 1] == a[|a| - 1] && b[|b| - hops..][hops - 1] == b[|b| - 1];
    assert Window(a, hops) == a[|a| - hops..] && Window(b, hops) == b[|b| - hops..];
  }

  // ---------------------------------------------------------------------------------------------
  // The entries of a header
  // ---------------------------------------------------------------------------------------------

  /** The entries of a header are what stands between its commas, without the blanks around it. */
  lemma ChainOfEntries(entries: seq<string>, i: nat, ink: nat)
    requires forall k :: 0 <= k < |entries| ==> ',' !in entries[k]
    requires i < |entries| && ink < |entries[i]| && !IsSpace(entries[i][ink])
    ensures |Chain(Some(Join(entries, ',')))| == |entries|
    ensures forall k :: 0 <= k < |entries| ==> Chain(Some(Join(entries, ',')))[k] == Trim(entries[k])
  {
    var at := JoinKeepsInk(entries, i, ink);
    TrimKeepsInk(Join(entries, ','), at);
    SplitJoin(entries, ',');
  }

  lemma {:induction false} JoinKeepsInk(entries: seq<string>, i: nat, ink: nat) returns (at: nat)
    requires i < |entries| && ink < |entries[i]| && !IsSpace(entries[i][ink])
    ensures at < |Join(entries, ',')| && !IsSpace(Join(entries, ',')[at])
  {
    var joined := Join(entries, ',');
    if |entries| == 1 {
      at := ink;
    } else if i == 0 {
      at := ink;
      assert joined[ink] == entries[0][ink];
    } else {
      var rest := JoinKeepsInk(entries[1..], i - 1, ink);
      at := |entries[0]| + 1 + rest;
      assert joined[at] == Join(entries[1..], ',')[rest];
    }
  }
}
