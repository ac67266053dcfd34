/** Signed network snapshots: their parts, and the structural validation every receiver runs.
    The hash that names a node after its signing key is a parameter. */
module Snapshot {
  import opened Base
  import opened BigEndian
  import opened Ip
  import opened Word64

  type Key32 = NodeId
  type Ipv4 = o: seq<Byte> | |o| == 4 witness seq(4, i => 0)
  type Ipv6 = o: seq<Byte> | |o| == 16 witness seq(16, i => 0)
  type Hash = Key32 -> Key32

  datatype SocketAddr = SocketAddr4(v4: Ipv4, port: U16) | SocketAddr6(v6: Ipv6, port: U16)

  datatype Candidate =
    | Host(address: SocketAddr)
    | ServerReflexive(address: SocketAddr)
    | PeerReflexive(address: SocketAddr)

  datatype PeerInfo = PeerInfo(
    nodeId: Key32,
    incarnation: U64,
    signingPublic: Key32,
    noisePublic: Key32,
    candidates: seq<Candidate>,
    ipv4: Option<Ipv4>,
    ipv6: Option<Ipv6>,
    credential: seq<Byte>,
    capabilities: seq<Byte>)

  datatype Cidr4 = Cidr4(network: Ipv4, prefixLen: Byte)
  datatype Cidr6 = Cidr6(network: Ipv6, prefixLen: Byte)

  datatype NetworkSnapshot = NetworkSnapshot(
    networkId: seq<Byte>,
    generation: U64,
    ipv4: Option<Cidr4>,
    ipv6: Option<Cidr6>,
    dohServers: seq<seq<Byte>>,
    stunServers: seq<seq<Byte>>,
    peers: seq<PeerInfo>,
    online: seq<Key32>,
    expiresAt: U64,
    signature: seq<Byte>)

  datatype Defect =
    | ZeroGeneration
    | Ipv4Prefix
    | Ipv4NotCanonical
    | Ipv6Prefix
    | Ipv6NotCanonical
    | PeerIdentity
    | PeerIpv4
    | PeerIpv6
    | OnlinePeer

  // ---------------------------------------------------------------- networks

  /** All ones moved up by `width - prefix`, in a word of `width` bits; nothing for an empty prefix. */
  function Mask(width: nat, prefix: nat): nat
    requires prefix <= width
  {
    if prefix == 0 then 0 else (Pow2(width) - 1) * Pow2(width - prefix) % Pow2(width)
  }

  predicate InNetwork(network: seq<Byte>, address: seq<Byte>, prefix: nat)
    requires prefix <= 8 * |network|
  {
    var mask := Mask(8 * |network|, prefix);
    And(Number(network), mask) == And(Number(address), mask) && And(Number(network), mask) == Number(network)
  }

  lemma {:induction false} Pow2Add(a: nat, b: nat)
    ensures Pow2(a + b) == Pow2(a) * Pow2(b)
  {
    if a > 0 {
      Pow2Add(a - 1, b);
    }
  }

  lemma {:induction false} Twice(a: int, b: int)
    ensures a * (2 * b) == 2 * (a * b) == (2 * a) * b
  {
  }

  lemma {:induction false} ShiftedOnes(w: nat, k: nat, p: nat)
    requires w == p * k && p >= 2 && k >= 1
    ensures (w - 1) * k % w == k * (p - 1)
  {
    assert (w - 1) * k == w * k - k;
    assert (k - 1) * w == w * k - w;
    assert k * (p - 1) == w - k;
    Scale(p, k);
    Rest((w - 1) * k, w, k - 1, w - k);
  }

  /** `p` ones above `k` zeros. */
  function Ones(k: nat, p: nat): nat {
    Times(Pow2(k), Pow2(p) - 1)
  }

  function Times(a: nat, b: nat): nat {
    a * b
  }

  /** The mask of a prefix: `prefix` ones above the rest of the width. */
  lemma {:induction false} MaskIs(width: nat, prefix: nat)
    requires prefix <= width
    ensures Mask(width, prefix) == Ones(width - prefix, prefix)
  {
    if prefix > 0 {
      Pow2Add(prefix, width - prefix);
      assert Pow2(prefix) >= 2;
      ShiftedOnes(Pow2(width), Pow2(width - prefix), Pow2(prefix));
    }
  }

  lemma {:induction false} AndAllOnes(x: nat, width: nat)
    requires x < Pow2(width)
    ensures And(x, Pow2(width) - 1) == x
  {
    if width > 0 && x > 0 {
      AndAllOnes(x / 2, width - 1);
      assert (Pow2(width) - 1) / 2 == Pow2(width - 1) - 1;
    }
  }

  lemma {:induction false} DivTwice(x: nat, d: nat)
    requires d > 0
    ensures x / 2 / d == x / (2 * d)
  {
    var q, r := x / 2 / d, x / 2 % d;
    Twice(q, d);
    assert x / 2 == q * d + r;
    Rest(x, 2 * d, q, 2 * r + x % 2);
  }

  lemma {:induction false} AndDouble(x: nat, m: nat)
    ensures And(x, 2 * m) == 2 * And(x / 2, m)
  {
  }

  lemma {:induction false} MaskStep(x: nat, d: nat, ones: nat)
    requires d > 0 && And(x / 2, d * ones) == x / 2 / d * d
    ensures And(x, (2 * d) * ones) == x / (2 * d) * (2 * d)
  {
    DivTwice(x, d);
    AndDouble(x, d * ones);
    Twice(d, ones);
    Twice(x / (2 * d), d);
  }

  /** Masking clears the low `k` bits. */
  lemma {:induction false} AndMask(x: nat, k: nat, p: nat)
    requires x < Pow2(k + p)
    ensures And(x, Ones(k, p)) == x / Pow2(k) * Pow2(k)
    decreases k
  {
    if k == 0 {
      AndAllOnes(x, p);
    } else {
      AndMask(x / 2, k - 1, p);
      MaskStep(x, Pow2(k - 1), Pow2(p) - 1);
    }
  }

  /** An address is in a network exactly when the network's bits past the prefix are zero and
      both agree on the bits of the prefix. */
  lemma {:induction false} InNetworkMeans(network: seq<Byte>, address: seq<Byte>, prefix: nat)
    requires |network| == |address| && prefix <= 8 * |network|
    ensures var d := Pow2(8 * |network| - prefix);
      InNetwork(network, address, prefix) <==>
        Number(network) % d == 0 && Number(network) / d == Number(address) / d
  {
    var k := 8 * |network| - prefix;
    var d := Pow2(k);
    NumberBound(network);
    NumberBound(address);
    MaskIs(8 * |network|, prefix);
    AndMask(Number(network), k, prefix);
    AndMask(Number(address), k, prefix);
    MaskedEqual(Number(network), Number(address), d);
  }

  lemma {:induction false} MaskedEqual(a: nat, b: nat, d: nat)
    requires d > 0
    ensures a / d * d == b / d * d && a / d * d == a <==> a % d == 0 && a / d == b / d
  {
  }

  // ---------------------------------------------------------------- validity

  predicate Cidr4Ok(c: Option<Cidr4>) {
    c.Some? ==> c.value.prefixLen <= 32 && InNetwork(c.value.network, c.value.network, c.value.prefixLen)
  }

  predicate Cidr6Ok(c: Option<Cidr6>) {
    c.Some? ==> c.value.prefixLen <= 128 && InNetwork(c.value.network, c.value.network, c.value.prefixLen)
  }

  predicate Ipv4Ok(c: Option<Cidr4>, a: Option<Ipv4>) {
    a.Some? ==> c.Some? && c.value.prefixLen <= 32 && InNetwork(c.value.network, a.value, c.value.prefixLen)
  }

  predicate Ipv6Ok(c: Option<Cidr6>, a: Option<Ipv6>) {
    a.Some? ==> c.Some? && c.value.prefixLen <= 128 && InNetwork(c.value.network, a.value, c.value.prefixLen)
  }

  predicate DistinctPeers(peers: seq<PeerInfo>) {
    forall i, j | 0 <= i < j < |peers| :: peers[i].nodeId != peers[j].nodeId
  }

  predicate Named(hash: Hash, peers: seq<PeerInfo>) {
    forall i | 0 <= i < |peers| :: peers[i].nodeId == hash(peers[i].signingPublic)
  }

  predicate DistinctIpv4(peers: seq<PeerInfo>) {
    forall i, j | 0 <= i < j < |peers| && peers[i].ipv4.Some? :: peers[i].ipv4 != peers[j].ipv4
  }

  predicate DistinctIpv6(peers: seq<PeerInfo>) {
    forall i, j | 0 <= i < j < |peers| && peers[i].ipv6.Some? :: peers[i].ipv6 != peers[j].ipv6
  }

  predicate InIpv4(c: Option<Cidr4>, peers: seq<PeerInfo>) {
    forall i | 0 <= i < |peers| :: Ipv4Ok(c, peers[i].ipv4)
  }

  predicate InIpv6(c: Option<Cidr6>, peers: seq<PeerInfo>) {
    forall i | 0 <= i < |peers| :: Ipv6Ok(c, peers[i].ipv6)
  }

  predicate Lists(peers: seq<PeerInfo>, id: Key32) {
    exists i | 0 <= i < |peers| :: peers[i].nodeId == id
  }

  predicate OnlineOk(peers: seq<PeerInfo>, online: seq<Key32>) {
    && (forall i | 0 <= i < |online| :: Lists(peers, online[i]))
    && (forall i, j | 0 <= i < j < |online| :: online[i] != online[j])
  }

  /** What a receiver may rely on in a snapshot it accepts. */
  predicate Valid(hash: Hash, s: NetworkSnapshot) {
    && s.generation != 0 && Cidr4Ok(s.ipv4) && Cidr6Ok(s.ipv6)
    && DistinctPeers(s.peers) && Named(hash, s.peers)
    && DistinctIpv4(s.peers) && InIpv4(s.ipv4, s.peers)
    && DistinctIpv6(s.peers) && InIpv6(s.ipv6, s.peers)
    && OnlineOk(s.peers, s.online)
  }

  /** The clause of validity an error stands for. */
  predicate Broken(hash: Hash, s: NetworkSnapshot, d: Defect) {
    match d
    case ZeroGeneration => s.generation == 0
    case Ipv4Prefix => s.ipv4.Some? && s.ipv4.value.prefixLen > 32
    case Ipv4NotCanonical => !Cidr4Ok(s.ipv4)
    case Ipv6Prefix => s.ipv6.Some? && s.ipv6.value.prefixLen > 128
    case Ipv6NotCanonical => !Cidr6Ok(s.ipv6)
    case PeerIdentity => !DistinctPeers(s.peers) || !Named(hash, s.peers)
    case PeerIpv4 => !DistinctIpv4(s.peers) || !InIpv4(s.ipv4, s.peers)
    case PeerIpv6 => !DistinctIpv6(s.peers) || !InIpv6(s.ipv6, s.peers)
    case OnlinePeer => !OnlineOk(s.peers, s.online)
  }

  // The three columns the scan checks: values that must differ where present, each with its verdict.

  datatype Cell<T> = Cell(value: Option<T>, fits: bool)

  predicate Clean<T(==)>(column: seq<Cell<T>>, n: nat)
    requires n <= |column|
  {
    && (forall i, j | 0 <= i < j < n && column[i].value.Some? :: column[i].value != column[j].value)
    && (forall i | 0 <= i < n :: column[i].fits)
  }

  ghost predicate Seen<T>(column: seq<Cell<T>>, n: nat, seen: set<T>)
    requires n <= |column|
  {
    && (forall i | 0 <= i < n && column[i].value.Some? :: column[i].value.value in seen)
    && (forall a | a in seen :: exists i | 0 <= i < n :: column[i].value == Some(a))
  }

  lemma {:induction false} ScanCell<T>(column: seq<Cell<T>>, n: nat, seen: set<T>)
    requires n < |column| && Clean(column, n) && Seen(column, n, seen)
    requires column[n].value.None? ==> column[n].fits
    ensures column[n].value.None? ==> Clean(column, n + 1) && Seen(column, n + 1, seen)
    ensures column[n].value.Some? ==>
      if column[n].value.value in seen || !column[n].fits then !Clean(column, |column|)
      else Clean(column, n + 1) && Seen(column, n + 1, seen + {column[n].value.value})
  {
  }

  ghost function Ids(hash: Hash, s: NetworkSnapshot): (r: seq<Cell<Key32>>)
    ensures |r| == |s.peers|
    ensures Clean(r, |r|) <==> DistinctPeers(s.peers) && Named(hash, s.peers)
  {
    var r := seq(|s.peers|, i requires 0 <= i < |s.peers| =>
      Cell(Some(s.peers[i].nodeId), s.peers[i].nodeId == hash(s.peers[i].signingPublic)));
    assert Clean(r, |r|) ==> DistinctPeers(s.peers) && Named(hash, s.peers) by {
      assert forall i | 0 <= i < |r| :: r[i].value == Some(s.peers[i].nodeId);
    }
    r
  }

  ghost function Ipv4s(s: NetworkSnapshot): (r: seq<Cell<Ipv4>>)
    ensures |r| == |s.peers|
    ensures Clean(r, |r|) <==> DistinctIpv4(s.peers) && InIpv4(s.ipv4, s.peers)
  {
    var r := seq(|s.peers|, i requires 0 <= i < |s.peers| => Cell(s.peers[i].ipv4, Ipv4Ok(s.ipv4, s.peers[i].ipv4)));
    assert Clean(r, |r|) ==> DistinctIpv4(s.peers) && InIpv4(s.ipv4, s.peers) by {
      assert forall i | 0 <= i < |r| :: r[i].value == s.peers[i].ipv4;
    }
    r
  }

  ghost function Ipv6s(s: NetworkSnapshot): (r: seq<Cell<Ipv6>>)
    ensures |r| == |s.peers|
    ensures Clean(r, |r|) <==> DistinctIpv6(s.peers) && InIpv6(s.ipv6, s.peers)
  {
    var r := seq(|s.peers|, i requires 0 <= i < |s.peers| => Cell(s.peers[i].ipv6, Ipv6Ok(s.ipv6, s.peers[i].ipv6)));
    assert Clean(r, |r|) ==> DistinctIpv6(s.peers) && InIpv6(s.ipv6, s.peers) by {
      assert forall i | 0 <= i < |r| :: r[i].value == s.peers[i].ipv6;
    }
    r
  }

  /** Accepts exactly the valid snapshots, and names a clause the others break. */
  method Validate(hash: Hash, s: NetworkSnapshot) returns (r: Option<Defect>)
    ensures r.None? <==> Valid(hash, s)
    ensures r.Some? ==> Broken(hash, s, r.value)
  {
    if s.generation == 0 { return Some(ZeroGeneration); }
    if s.ipv4.Some? {
      if s.ipv4.value.prefixLen > 32 { return Some(Ipv4Prefix); }
      if !InNetwork(s.ipv4.value.network, s.ipv4.value.network, s.ipv4.value.prefixLen) { return Some(Ipv4NotCanonical); }
    }
    if s.ipv6.Some? {
      if s.ipv6.value.prefixLen > 128 { return Some(Ipv6Prefix); }
      if !InNetwork(s.ipv6.value.network, s.ipv6.value.network, s.ipv6.value.prefixLen) { return Some(Ipv6NotCanonical); }
    }
    var peers := ScanPeers(hash, s);
    if peers.Err? { return Some(peers.error); }
    SeenIds(hash, s, peers.value);
    var onlineOk := ScanOnline(s.peers, s.online, peers.value);
    return if onlineOk then None else Some(OnlinePeer);
  }

  /** What the scan knows after `n` peers. */
  ghost predicate Scanned(hash: Hash, s: NetworkSnapshot, n: nat, ids: set<Key32>, v4: set<Ipv4>, v6: set<Ipv6>)
    requires n <= |s.peers|
  {
    && Clean(Ids(hash, s), n) && Seen(Ids(hash, s), n, ids)
    && Clean(Ipv4s(s), n) && Seen(Ipv4s(s), n, v4)
    && Clean(Ipv6s(s), n) && Seen(Ipv6s(s), n, v6)
  }

  /** The column an error of the scan blames. */
  ghost predicate Blamed(hash: Hash, s: NetworkSnapshot, d: Defect) {
    match d
    case PeerIdentity => !Clean(Ids(hash, s), |s.peers|)
    case PeerIpv4 => !Clean(Ipv4s(s), |s.peers|)
    case PeerIpv6 => !Clean(Ipv6s(s), |s.peers|)
    case _ => false
  }

  function Only<T>(o: Option<T>): set<T> {
    if o.Some? then {o.value} else {}
  }

  predicate IdFails(hash: Hash, peer: PeerInfo, ids: set<Key32>) {
    peer.nodeId in ids || peer.nodeId != hash(peer.signingPublic)
  }

  predicate Ipv4Fails(c: Option<Cidr4>, peer: PeerInfo, seen: set<Ipv4>) {
    peer.ipv4.Some? && (peer.ipv4.value in seen || !Ipv4Ok(c, peer.ipv4))
  }

  predicate Ipv6Fails(c: Option<Cidr6>, peer: PeerInfo, seen: set<Ipv6>) {
    peer.ipv6.Some? && (peer.ipv6.value in seen || !Ipv6Ok(c, peer.ipv6))
  }

  lemma {:induction false} ScanPeer(hash: Hash, s: NetworkSnapshot, n: nat, ids: set<Key32>, v4: set<Ipv4>, v6: set<Ipv6>)
    requires n < |s.peers| && Scanned(hash, s, n, ids, v4, v6)
    ensures var peer := s.peers[n];
      && (IdFails(hash, peer, ids) ==> Blamed(hash, s, PeerIdentity))
      && (Ipv4Fails(s.ipv4, peer, v4) ==> Blamed(hash, s, PeerIpv4))
      && (Ipv6Fails(s.ipv6, peer, v6) ==> Blamed(hash, s, PeerIpv6))
      && (!IdFails(hash, peer, ids) && !Ipv4Fails(s.ipv4, peer, v4) && !Ipv6Fails(s.ipv6, peer, v6) ==>
            Scanned(hash, s, n + 1, ids + {peer.nodeId}, v4 + Only(peer.ipv4), v6 + Only(peer.ipv6)))
  {
    ScanCell(Ids(hash, s), n, ids);
    ScanCell(Ipv4s(s), n, v4);
    ScanCell(Ipv6s(s), n, v6);
    assert v4 + {} == v4 && v6 + {} == v6;
  }

  /** The loop over the peers; hands on the ids it has seen. */
  method ScanPeers(hash: Hash, s: NetworkSnapshot) returns (r: Result<set<Key32>, Defect>)
    ensures r.Ok? ==> exists v4, v6 :: Scanned(hash, s, |s.peers|, r.value, v4, v6)
    ensures r.Err? ==> Blamed(hash, s, r.error)
  {
    var ids: set<Key32>, v4: set<Ipv4>, v6: set<Ipv6> := {}, {}, {};
    for n := 0 to |s.peers|
      invariant Scanned(hash, s, n, ids, v4, v6)
    {
      var peer := s.peers[n];
      ScanPeer(hash, s, n, ids, v4, v6);
      if IdFails(hash, peer, ids) { return Err(PeerIdentity); }
      ids := ids + {peer.nodeId};
      if Ipv4Fails(s.ipv4, peer, v4) { return Err(PeerIpv4); }
      v4 := v4 + Only(peer.ipv4);
      if Ipv6Fails(s.ipv6, peer, v6) { return Err(PeerIpv6); }
      v6 := v6 + Only(peer.ipv6);
    }
    return Ok(ids);
  }

  lemma {:induction false} SeenIds(hash: Hash, s: NetworkSnapshot, ids: set<Key32>)
    requires Seen(Ids(hash, s), |s.peers|, ids)
    ensures forall id: Key32 :: id in ids <==> Lists(s.peers, id)
  {
    var column := Ids(hash, s);
    assert forall i | 0 <= i < |column| :: column[i].value == Some(s.peers[i].nodeId);
    forall id: Key32 ensures id in ids <==> Lists(s.peers, id) {
      if id in ids {
        var i :| 0 <= i < |column| && column[i].value == Some(id);
        assert s.peers[i].nodeId == id;
      }
      if i :| 0 <= i < |s.peers| && s.peers[i].nodeId == id {
        assert column[i].value == Some(id);
      }
    }
  }

  method ScanOnline(peers: seq<PeerInfo>, online: seq<Key32>, ids: set<Key32>) returns (ok: bool)
    requires forall id: Key32 :: id in ids <==> Lists(peers, id)
    ensures ok <==> OnlineOk(peers, online)
  {
    var seen: set<Key32> := {};
    for n := 0 to |online|
      invariant OnlineOk(peers, online[..n])
      invariant forall id: Key32 :: id in seen <==> id in online[..n]
    {
      if online[n] !in ids || online[n] in seen { return false; }
      seen := seen + {online[n]};
    }
    assert online[..|online|] == online;
    return true;
  }
}
