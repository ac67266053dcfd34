/** The bytes of a snapshot that are signed: peers and online ids are put in the order of their
    node ids first, so that the listing order does not matter. */
module CanonicalBytes {
  import opened Base
  import opened BigEndian
  import opened Snapshot
  import opened Wire

  // ---------------------------------------------------------------- order of node ids

  /** Octet by octet, the first difference decides. */
  predicate AtMost(a: Bytes, b: Bytes) {
    if a == [] then true
    else if b == [] then false
    else if a[0] != b[0] then a[0] < b[0]
    else AtMost(a[1..], b[1..])
  }

  lemma {:induction false} AtMostTotal(a: Bytes, b: Bytes)
    ensures AtMost(a, b) || AtMost(b, a)
    ensures AtMost(a, b) && AtMost(b, a) ==> a == b
  {
    if a != [] && b != [] && a[0] == b[0] {
      AtMostTotal(a[1..], b[1..]);
      assert a == [a[0]] + a[1..] && b == [b[0]] + b[1..];
    }
  }

  lemma {:induction false} AtMostTransitive(a: Bytes, b: Bytes, c: Bytes)
    requires AtMost(a, b) && AtMost(b, c)
    ensures AtMost(a, c)
  {
    if a != [] && a[0] == b[0] == c[0] {
      AtMostTransitive(a[1..], b[1..], c[1..]);
    }
  }

  // ---------------------------------------------------------------- sorting by a key

  ghost predicate Sorted<T>(s: seq<T>, key: T -> Bytes) {
    forall i, j | 0 <= i < j < |s| :: AtMost(key(s[i]), key(s[j]))
  }

  function Insert<T>(s: seq<T>, x: T, key: T -> Bytes): (r: seq<T>)
    ensures multiset(r) == multiset(s) + multiset{x}
  {
    if s == [] then [x]
    else if AtMost(key(s[|s| - 1]), key(x)) then s + [x]
    else
      assert s == s[..|s| - 1] + [s[|s| - 1]];
      Insert(s[..|s| - 1], x, key) + [s[|s| - 1]]
  }

  ghost predicate Below<T>(s: seq<T>, key: T -> Bytes, top: T) {
    forall i | 0 <= i < |s| :: AtMost(key(s[i]), key(top))
  }

  lemma {:induction false} SortedAppend<T>(s: seq<T>, top: T, key: T -> Bytes)
    requires Sorted(s, key) && Below(s, key, top)
    ensures Sorted(s + [top], key)
  {
  }

  lemma {:induction false} InsertBelow<T>(s: seq<T>, x: T, key: T -> Bytes, top: T)
    requires AtMost(key(x), key(top)) && Below(s, key, top)
    ensures Below(Insert(s, x, key), key, top)
  {
    var r := Insert(s, x, key);
    forall i | 0 <= i < |r| ensures AtMost(key(r[i]), key(top)) {
      assert r[i] in multiset(r);
      if r[i] != x { assert r[i] in s; }
    }
  }

  lemma {:induction false} InsertSorted<T>(s: seq<T>, x: T, key: T -> Bytes)
    requires Sorted(s, key)
    ensures Sorted(Insert(s, x, key), key)
  {
    if s != [] {
      var init, last := s[..|s| - 1], s[|s| - 1];
      AtMostTotal(key(last), key(x));
      if AtMost(key(last), key(x)) {
        forall i | 0 <= i < |s| ensures AtMost(key(s[i]), key(x)) {
          if i < |s| - 1 { AtMostTransitive(key(s[i]), key(last), key(x)); }
        }
        SortedAppend(s, x, key);
      } else {
        InsertSorted(init, x, key);
        InsertBelow(init, x, key, last);
        SortedAppend(Insert(init, x, key), last, key);
      }
    }
  }

  /** Puts a sequence in the order of its keys, keeping equal keys in their order. */
  function Sort<T>(s: seq<T>, key: T -> Bytes): (r: seq<T>)
    ensures multiset(r) == multiset(s)
  {
    if s == [] then []
    else
      assert s == s[..|s| - 1] + [s[|s| - 1]];
      Insert(Sort(s[..|s| - 1], key), s[|s| - 1], key)
  }

  lemma {:induction false} SortSorts<T>(s: seq<T>, key: T -> Bytes)
    ensures Sorted(Sort(s, key), key)
  {
    if s != [] {
      SortSorts(s[..|s| - 1], key);
      InsertSorted(Sort(s[..|s| - 1], key), s[|s| - 1], key);
    }
  }

  /** The key tells the elements apart. */
  ghost predicate Told<T>(s: seq<T>, key: T -> Bytes) {
    forall x, y | x in s && y in s && key(x) == key(y) :: x == y
  }

  lemma {:induction false} SameFirst<T>(a: seq<T>, b: seq<T>, key: T -> Bytes)
    requires a != [] && Sorted(a, key) && Sorted(b, key) && multiset(a) == multiset(b) && Told(a, key)
    ensures b != [] && a[0] == b[0]
  {
    assert a[0] in multiset(b);
    assert b[0] in multiset(a);
    FirstIsLeast(a, key, b[0]);
    FirstIsLeast(b, key, a[0]);
    AtMostTotal(key(a[0]), key(b[0]));
  }

  lemma {:induction false} SameRest<T>(a: seq<T>, b: seq<T>)
    requires a != [] && b != [] && a[0] == b[0] && multiset(a) == multiset(b)
    ensures multiset(a[1..]) == multiset(b[1..])
  {
    assert a == [a[0]] + a[1..] && b == [b[0]] + b[1..];
    assert multiset(a[1..]) == multiset(a) - multiset{a[0]};
  }

  /** A sorted arrangement of elements their keys tell apart is the only one. */
  lemma {:induction false} SortedUnique<T>(a: seq<T>, b: seq<T>, key: T -> Bytes)
    requires Sorted(a, key) && Sorted(b, key) && multiset(a) == multiset(b) && Told(a, key)
    ensures a == b
  {
    if a == [] {
      assert |multiset(b)| == 0;
    } else {
      SameFirst(a, b, key);
      SameRest(a, b);
      SortedUnique(a[1..], b[1..], key);
      assert a == [a[0]] + a[1..] && b == [b[0]] + b[1..];
    }
  }

  lemma {:induction false} FirstIsLeast<T>(s: seq<T>, key: T -> Bytes, x: T)
    requires Sorted(s, key) && x in s
    ensures AtMost(key(s[0]), key(x))
  {
    var i :| 0 <= i < |s| && s[i] == x;
    AtMostTotal(key(x), key(x));
  }

  /** Sorting forgets the order its input came in. */
  lemma {:induction false} SortForgetsOrder<T>(a: seq<T>, b: seq<T>, key: T -> Bytes)
    requires multiset(a) == multiset(b) && Told(a, key)
    ensures Sort(a, key) == Sort(b, key)
  {
    SortSorts(a, key);
    SortSorts(b, key);
    forall x | x in Sort(a, key) ensures x in a {
      assert x in multiset(Sort(a, key));
    }
    SortedUnique(Sort(a, key), Sort(b, key), key);
  }

  // ---------------------------------------------------------------- the signed bytes

  function Tag(): Bytes {
    [0x56, 0x45, 0x4C, 0x41, 0x2D, 0x4E, 0x45, 0x54, 0x57, 0x4F, 0x52, 0x4B,
     0x2D, 0x53, 0x4E, 0x41, 0x50, 0x53, 0x48, 0x4F, 0x54, 0x2D, 0x76, 0x34]
  }

  function EncodeCidr4(c: Option<Cidr4>): Bytes {
    if c.Some? then [1] + c.value.network + [c.value.prefixLen] else [0]
  }

  function EncodeCidr6(c: Option<Cidr6>): Bytes {
    if c.Some? then [1] + c.value.network + [c.value.prefixLen] else [0]
  }

  function EncodeIpv4(a: Option<Ipv4>): Bytes {
    if a.Some? then [1] + a.value else [0]
  }

  function EncodeIpv6(a: Option<Ipv6>): Bytes {
    if a.Some? then [1] + a.value else [0]
  }

  /** A length as 32 bits, cut off above. */
  function EncodeLength(n: nat): Bytes {
    Be(n, 4)
  }

  function EncodeString(s: Bytes): Bytes {
    EncodeLength(|s|) + s
  }

  function EncodeSocketAddress(a: SocketAddr): Bytes {
    match a
    case SocketAddr4(ip, port) => [4] + ip + Be(port, 2)
    case SocketAddr6(ip, port) => [6] + ip + Be(port, 2)
  }

  function EncodeCandidate(c: Candidate): Bytes {
    match c
    case Host(a) => [0] + EncodeSocketAddress(a)
    case ServerReflexive(a) => [1] + EncodeSocketAddress(a)
    case PeerReflexive(a) => [2] + EncodeSocketAddress(a)
  }

  /** Elements one after the other. */
  function Joined<T>(s: seq<T>, encode: T -> Bytes): Bytes {
    if s == [] then [] else Joined(s[..|s| - 1], encode) + encode(s[|s| - 1])
  }

  function EncodeServers(servers: seq<Bytes>): Bytes {
    if servers == [] then [] else EncodeLength(|servers|) + Joined(servers, EncodeString)
  }

  function EncodePeer(p: PeerInfo): Bytes {
    p.nodeId + Be(p.incarnation, 8) + p.signingPublic + p.noisePublic + EncodeIpv4(p.ipv4) + EncodeIpv6(p.ipv6)
    + EncodeLength(|p.candidates|) + Joined(p.candidates, EncodeCandidate)
    + EncodeString(p.credential) + EncodeString(p.capabilities)
  }

  function PeerKey(p: PeerInfo): Bytes {
    p.nodeId
  }

  function IdKey(id: Key32): Bytes {
    id
  }

  function EncodeId(id: Key32): Bytes {
    id
  }

  /** The fields before the peers. */
  function EncodePreamble(s: NetworkSnapshot): Bytes {
    Tag() + s.networkId + Be(s.generation, 8) + EncodeCidr4(s.ipv4) + EncodeCidr6(s.ipv6)
    + EncodeServers(s.dohServers) + EncodeServers(s.stunServers)
  }

  /** The signed bytes of a snapshot whose peers and online ids have been put in order. */
  function EncodeOrdered(s: NetworkSnapshot, peers: seq<PeerInfo>, online: seq<Key32>): Bytes {
    EncodePreamble(s) + EncodeLength(|s.peers|) + Joined(peers, EncodePeer)
    + EncodeLength(|online|) + Joined(online, EncodeId) + Be(s.expiresAt, 8)
  }

  function Canonical(s: NetworkSnapshot): Bytes {
    EncodeOrdered(s, Sort(s.peers, PeerKey), Sort(s.online, IdKey))
  }

  method AppendAll<T>(out: Bytes, s: seq<T>, encode: T -> Bytes) returns (r: Bytes)
    ensures r == out + Joined(s, encode)
  {
    r := out;
    for i := 0 to |s|
      invariant r == out + Joined(s[..i], encode)
    {
      r := r + encode(s[i]);
      assert s[..i + 1][..i] == s[..i];
    }
    assert s[..|s|] == s;
  }

  method AppendServers(out: Bytes, servers: seq<Bytes>) returns (r: Bytes)
    ensures r == out + EncodeServers(servers)
  {
    r := out;
    if servers != [] {
      r := AppendAll(out + EncodeLength(|servers|), servers, EncodeString);
    }
  }

  /** Writes the signed bytes piece by piece. */
  method UnsignedBytes(s: NetworkSnapshot) returns (out: Bytes)
    ensures out == Canonical(s)
  {
    out := Tag();
    out := out + s.networkId;
    out := out + Be(s.generation, 8);
    out := out + EncodeCidr4(s.ipv4);
    out := out + EncodeCidr6(s.ipv6);
    out := AppendServers(out, s.dohServers);
    out := AppendServers(out, s.stunServers);
    assert out == EncodePreamble(s);
    out := out + EncodeLength(|s.peers|);
    var peers := Sort(s.peers, PeerKey);
    out := AppendAll(out, peers, EncodePeer);
    var online := Sort(s.online, IdKey);
    out := out + EncodeLength(|online|);
    out := AppendAll(out, online, EncodeId);
    out := out + Be(s.expiresAt, 8);
  }

  /** Two listings of the same valid membership are signed as the same bytes, whatever the order
      of their peers and of their online ids. */
  lemma {:induction false} SignedBytesForgetOrder(hash: Hash, a: NetworkSnapshot, b: NetworkSnapshot)
    requires Valid(hash, a)
    requires multiset(a.peers) == multiset(b.peers) && multiset(a.online) == multiset(b.online)
    requires b == a.(peers := b.peers, online := b.online, signature := b.signature)
    ensures Canonical(a) == Canonical(b)
  {
    SortForgetsOrder(a.peers, b.peers, PeerKey);
    SortForgetsOrder(a.online, b.online, IdKey);
    assert |a.peers| == |multiset(a.peers)| == |b.peers|;
  }
}
