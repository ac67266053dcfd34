/** How a node takes over a new membership snapshot: which peers and sessions survive, and the
    routes it then answers with. The signature check, the clock and the check of a peer's
    credential are parameters; a peer record is a value held in the peer table. */
module Membership {
  import opened Base
  import opened Ip
  import opened Snapshot
  import opened BigEndian

  datatype Session = Session(id: U64, path: SocketAddr)

  datatype Peer = Peer(
    info: PeerInfo,
    online: bool,
    active: Option<Session>,
    attempt: bool,
    connecting: bool,
    queue: seq<seq<Byte>>,
    requested: bool,
    attempts: nat)

  datatype Error =
    | BadSignature
    | Invalid(defect: Defect)
    | SnapshotExpired
    | NetworkMismatch
    | StaleSnapshot
    | LocalPeerMissing
    | LocalAddressMissing
    | PeerRejected(peer: Key32)

  /** The part of a peer's record a session is bound to. */
  predicate SameIdentity(a: PeerInfo, b: PeerInfo) {
    && a.nodeId == b.nodeId && a.incarnation == b.incarnation
    && a.signingPublic == b.signingPublic && a.noisePublic == b.noisePublic
    && a.ipv4 == b.ipv4 && a.ipv6 == b.ipv6
  }

  predicate CanRetain(peer: Peer, next: PeerInfo) {
    && SameIdentity(peer.info, next)
    && if peer.active.Some? then
         || peer.info.candidates == next.candidates
         || exists i | 0 <= i < |next.candidates| :: next.candidates[i].address == peer.active.value.path
       else !peer.attempt || peer.info.candidates == next.candidates
  }

  function Invalidated(peer: Peer, reconnect: bool): Peer {
    var lost := reconnect && (peer.active.Some? || peer.attempt);
    peer.(active := None, attempt := false, queue := [], connecting := false,
          requested := peer.requested || lost, attempts := if lost then 0 else peer.attempts)
  }

  function Fresh(info: PeerInfo, online: bool): Peer {
    Peer(info, online, None, false, false, [], false, 0)
  }

  /** A known peer under its new record. */
  function Refreshed(peer: Peer, info: PeerInfo, online: bool): Peer {
    var kept := if CanRetain(peer, info) then peer else Invalidated(peer, true);
    var updated := kept.(info := info, online := online);
    if online && updated.requested then updated.(attempts := 0) else updated
  }

  /** The records of the first `n` peers, by id. */
  ghost function Listing(peers: seq<PeerInfo>, n: nat): map<Key32, PeerInfo>
    requires n <= |peers|
  {
    if n == 0 then map[] else Listing(peers, n - 1)[peers[n - 1].nodeId := peers[n - 1]]
  }

  ghost function Members(s: NetworkSnapshot): map<Key32, PeerInfo> {
    Listing(s.peers, |s.peers|)
  }

  lemma {:induction false} ListingAt(peers: seq<PeerInfo>, n: nat, i: nat)
    requires DistinctPeers(peers) && i < n <= |peers|
    ensures peers[i].nodeId in Listing(peers, n) && Listing(peers, n)[peers[i].nodeId] == peers[i]
  {
    if i < n - 1 {
      ListingAt(peers, n - 1, i);
      assert peers[i].nodeId != peers[n - 1].nodeId;
    }
  }

  lemma {:induction false} ListingIn(peers: seq<PeerInfo>, n: nat, id: Key32) returns (i: nat)
    requires n <= |peers| && id in Listing(peers, n)
    ensures i < n && peers[i].nodeId == id && Listing(peers, n)[id] == peers[i]
  {
    if peers[n - 1].nodeId == id { return n - 1; }
    i := ListingIn(peers, n - 1, id);
  }

  /** The peer table as the loop leaves it in place after `listed` records. */
  ghost function Touched(peers: map<Key32, Peer>, listed: map<Key32, PeerInfo>, me: Key32, online: set<Key32>): map<Key32, Peer> {
    map id | id in peers :: if id in listed && id != me then Refreshed(peers[id], listed[id], id in online) else peers[id]
  }

  /** The table that replaces it. */
  ghost function Replacement(peers: map<Key32, Peer>, listed: map<Key32, PeerInfo>, me: Key32, online: set<Key32>): map<Key32, Peer> {
    map id | id in listed && id != me ::
      if id in peers then Refreshed(peers[id], listed[id], id in online) else Fresh(listed[id], id in online)
  }

  /** A session index entry is dropped when its peer's session is. */
  function DropSession(sessions: map<U64, Key32>, peer: Option<Peer>, id: Key32): map<U64, Key32> {
    if peer.Some? && peer.value.active.Some? then
      var sid := peer.value.active.value.id;
      if sid in sessions && sessions[sid] == id then sessions - {sid} else sessions
    else sessions
  }

  /** Every indexed session is the active session of the peer it names. */
  predicate Indexed(sessions: map<U64, Key32>, peers: map<Key32, Peer>) {
    forall sid | sid in sessions ::
      sessions[sid] in peers && peers[sessions[sid]].active.Some? && peers[sessions[sid]].active.value.id == sid
  }

  // ---------------------------------------------------------------- routes

  function Addresses(info: PeerInfo): seq<IpAddr> {
    (if info.ipv4.Some? then [V4(info.ipv4.value)] else []) + (if info.ipv6.Some? then [V6(info.ipv6.value)] else [])
  }

  /** `a` is one of the addresses of `info`. */
  predicate Owns(info: PeerInfo, a: IpAddr) {
    match a
    case V4(o) => info.ipv4.Some? && info.ipv4.value == o
    case V6(o) => info.ipv6.Some? && info.ipv6.value == o
  }

  lemma {:induction false} OwnsAddresses(info: PeerInfo, a: IpAddr)
    ensures Owns(info, a) <==> a in Addresses(info)
  {
  }

  ghost predicate DistinctAddresses(infos: map<Key32, PeerInfo>) {
    forall a, b, x | a in infos && b in infos && Owns(infos[a], x) && Owns(infos[b], x) :: a == b
  }

  /** The routes of a set of peers: exactly their addresses, each to its owner. */
  ghost predicate RoutesOf(routes: map<IpAddr, NodeId>, infos: map<Key32, PeerInfo>) {
    && (forall a | a in routes :: routes[a] in infos && Owns(infos[routes[a]], a))
    && (forall id, a | id in infos && Owns(infos[id], a) :: a in routes && routes[a] == id)
  }

  lemma {:induction false} ValidAddressesDistinct(hash: Hash, s: NetworkSnapshot)
    requires Snapshot.Valid(hash, s)
    ensures DistinctAddresses(Members(s))
  {
    var m := Members(s);
    forall a, b, x | a in m && b in m && Owns(m[a], x) && Owns(m[b], x) ensures a == b {
      var i := ListingIn(s.peers, |s.peers|, a);
      var j := ListingIn(s.peers, |s.peers|, b);
      if x.V4? {
        assert s.peers[i].ipv4 == Some(x.octets) == s.peers[j].ipv4;
      } else {
        assert s.peers[i].ipv6 == Some(x.octets) == s.peers[j].ipv6;
      }
    }
  }

  method InsertPeer(table: RouteTable, info: PeerInfo)
    modifies table
    ensures table.local == old(table.local)
    ensures forall a :: a in table.routes <==> a in old(table.routes) || Owns(info, a)
    ensures forall a | a in table.routes :: table.routes[a] == if Owns(info, a) then info.nodeId else old(table.routes)[a]
  {
    if info.ipv4.Some? { table.Insert(V4(info.ipv4.value), info.nodeId); }
    if info.ipv6.Some? { table.Insert(V6(info.ipv6.value), info.nodeId); }
  }

  /** Fills a route table from the peers, in any order. */
  method BuildRoutes(local: seq<IpAddr>, peers: map<Key32, Peer>) returns (table: RouteTable)
    requires forall id | id in peers :: peers[id].info.nodeId == id
    requires DistinctAddresses(Infos(peers))
    ensures fresh(table) && table.local == local && RoutesOf(table.routes, Infos(peers))
  {
    table := new RouteTable(local);
    ghost var done: map<Key32, PeerInfo> := map[];
    var left := peers.Keys;
    while left != {}
      invariant left <= peers.Keys && done == Infos(peers) - left
      invariant fresh(table) && table.local == local && RoutesOf(table.routes, done)
      decreases |left|
    {
      var id :| id in left;
      var info := peers[id].info;
      ghost var before := table.routes;
      InsertPeer(table, info);
      RoutesGrow(before, table.routes, done, Infos(peers), id);
      done := done[id := info];
      left := left - {id};
    }
    assert done == Infos(peers);
  }

  ghost function Infos(peers: map<Key32, Peer>): map<Key32, PeerInfo> {
    map id | id in peers :: peers[id].info
  }

  lemma {:induction false} RoutesGrow(before: map<IpAddr, NodeId>, after: map<IpAddr, NodeId>, done: map<Key32, PeerInfo>, infos: map<Key32, PeerInfo>, id: Key32)
    requires RoutesOf(before, done) && DistinctAddresses(infos)
    requires id in infos && id !in done && forall k | k in done :: k in infos && infos[k] == done[k]
    requires forall a :: a in after <==> a in before || Owns(infos[id], a)
    requires forall a | a in after :: after[a] == if Owns(infos[id], a) then id else before[a]
    ensures RoutesOf(after, done[id := infos[id]])
  {
    var more := done[id := infos[id]];
    forall a | a in after ensures after[a] in more && Owns(more[after[a]], a) {
      if !Owns(infos[id], a) { assert before[a] in done && Owns(done[before[a]], a); }
    }
    forall k, a | k in more && Owns(more[k], a) ensures a in after && after[a] == k {
      if k != id {
        assert k in done && Owns(done[k], a) && before[a] == k;
        assert !Owns(infos[id], a) by { assert Owns(infos[k], a); }
      }
    }
  }

  // ---------------------------------------------------------------- the sessions that stay

  /** The index without the sessions of listed peers that may not keep theirs. */
  ghost function SessionsKept(sessions: map<U64, Key32>, peers: map<Key32, Peer>, listed: map<Key32, PeerInfo>, me: Key32): map<U64, Key32> {
    map sid | sid in sessions && !Loses(peers, listed, me, sessions[sid]) :: sessions[sid]
  }

  predicate Loses(peers: map<Key32, Peer>, listed: map<Key32, PeerInfo>, me: Key32, id: Key32) {
    id in listed && id != me && id in peers && !CanRetain(peers[id], listed[id])
  }

  lemma {:induction false} KeepOne(sessions: map<U64, Key32>, peers: map<Key32, Peer>, listed: map<Key32, PeerInfo>, me: Key32, info: PeerInfo)
    requires info.nodeId !in listed && (info.nodeId == me || info.nodeId !in peers || CanRetain(peers[info.nodeId], info))
    ensures SessionsKept(sessions, peers, listed[info.nodeId := info], me) == SessionsKept(sessions, peers, listed, me)
  {
    forall id ensures Loses(peers, listed[info.nodeId := info], me, id) == Loses(peers, listed, me, id) {
    }
  }

  /** The sessions of all peers but one. */
  ghost function Without(sessions: map<U64, Key32>, n: Key32): map<U64, Key32> {
    map sid | sid in sessions && sessions[sid] != n :: sessions[sid]
  }

  /** Dropping the session of a peer drops all that the index holds for it. */
  lemma {:induction false} DropsAll(sessions: map<U64, Key32>, peer: Peer, n: Key32)
    requires forall sid | sid in sessions && sessions[sid] == n :: peer.active.Some? && peer.active.value.id == sid
    ensures DropSession(sessions, Some(peer), n) == Without(sessions, n)
  {
  }

  lemma {:induction false} DropOne(sessions: map<U64, Key32>, peers: map<Key32, Peer>, listed: map<Key32, PeerInfo>, me: Key32, info: PeerInfo)
    requires Indexed(sessions, peers) && info.nodeId !in listed && info.nodeId != me && info.nodeId in peers
    requires !CanRetain(peers[info.nodeId], info)
    ensures SessionsKept(sessions, peers, listed[info.nodeId := info], me)
      == DropSession(SessionsKept(sessions, peers, listed, me), Some(peers[info.nodeId]), info.nodeId)
  {
    var n := info.nodeId;
    forall id ensures Loses(peers, listed[n := info], me, id) <==> Loses(peers, listed, me, id) || id == n {
    }
    assert SessionsKept(sessions, peers, listed[n := info], me) == Without(SessionsKept(sessions, peers, listed, me), n);
    DropsAll(SessionsKept(sessions, peers, listed, me), peers[n], n);
  }

  // One more record changes one entry of each table.

  lemma {:induction false} TouchOne(peers: map<Key32, Peer>, listed: map<Key32, PeerInfo>, me: Key32, online: set<Key32>, info: PeerInfo)
    requires info.nodeId !in listed
    ensures info.nodeId in peers ==> Touched(peers, listed, me, online)[info.nodeId] == peers[info.nodeId]
    ensures var n, touched := info.nodeId, Touched(peers, listed, me, online);
      Touched(peers, listed[n := info], me, online) ==
        if n == me || n !in peers then touched else touched[n := Refreshed(peers[n], info, n in online)]
  {
  }

  lemma {:induction false} ReplaceOne(peers: map<Key32, Peer>, listed: map<Key32, PeerInfo>, me: Key32, online: set<Key32>, info: PeerInfo)
    requires info.nodeId !in listed
    ensures var n, replaced := info.nodeId, Replacement(peers, listed, me, online);
      Replacement(peers, listed[n := info], me, online) ==
        if n == me then replaced
        else replaced[n := if n in peers then Refreshed(peers[n], info, n in online) else Fresh(info, n in online)]
  {
  }

  /** Where the loop over the records stands once those of `listed` are done. */
  ghost predicate RefreshedTo(peers: map<Key32, Peer>, sessions: map<U64, Key32>, listed: map<Key32, PeerInfo>, me: Key32, online: set<Key32>,
                              peers': map<Key32, Peer>, sessions': map<U64, Key32>, replacement: map<Key32, Peer>) {
    && replacement == Replacement(peers, listed, me, online)
    && peers' == Touched(peers, listed, me, online)
    && sessions' == SessionsKept(sessions, peers, listed, me)
  }

  lemma {:induction false} RefreshKnown(peers: map<Key32, Peer>, sessions: map<U64, Key32>, listed: map<Key32, PeerInfo>, me: Key32, online: set<Key32>,
                                        peers': map<Key32, Peer>, sessions': map<U64, Key32>, replacement: map<Key32, Peer>, info: PeerInfo)
    requires Indexed(sessions, peers) && info.nodeId !in listed && info.nodeId != me && info.nodeId in peers
    requires RefreshedTo(peers, sessions, listed, me, online, peers', sessions', replacement)
    ensures peers'[info.nodeId] == peers[info.nodeId]
    ensures var n, old_ := info.nodeId, peers[info.nodeId];
      var peer := Refreshed(old_, info, n in online);
      RefreshedTo(peers, sessions, listed[n := info], me, online, peers'[n := peer],
                  if CanRetain(old_, info) then sessions' else DropSession(sessions', Some(old_), n), replacement[n := peer])
  {
    TouchOne(peers, listed, me, online, info);
    ReplaceOne(peers, listed, me, online, info);
    if CanRetain(peers[info.nodeId], info) {
      KeepOne(sessions, peers, listed, me, info);
    } else {
      DropOne(sessions, peers, listed, me, info);
    }
  }

  lemma {:induction false} RefreshOther(peers: map<Key32, Peer>, sessions: map<U64, Key32>, listed: map<Key32, PeerInfo>, me: Key32, online: set<Key32>,
                                        peers': map<Key32, Peer>, sessions': map<U64, Key32>, replacement: map<Key32, Peer>, info: PeerInfo)
    requires info.nodeId !in listed && (info.nodeId == me || info.nodeId !in peers)
    requires RefreshedTo(peers, sessions, listed, me, online, peers', sessions', replacement)
    ensures var n := info.nodeId;
      RefreshedTo(peers, sessions, listed[n := info], me, online, peers', sessions',
                  if n == me then replacement else replacement[n := Fresh(info, n in online)])
  {
    TouchOne(peers, listed, me, online, info);
    ReplaceOne(peers, listed, me, online, info);
    KeepOne(sessions, peers, listed, me, info);
  }

  /** A configured network of all zeros accepts any. */
  const ANY_NETWORK: seq<Byte> := [0, 0, 0, 0, 0, 0, 0, 0, 0, 0, 0, 0, 0, 0, 0, 0]

  /** What a node asks of a snapshot before it changes anything. */
  ghost predicate AdmissibleTo(me: Key32, network: seq<Byte>, secured: bool, generation: U64,
                               hash: Hash, s: NetworkSnapshot, signed: bool, now: nat) {
    && (secured ==> signed) && Snapshot.Valid(hash, s) && s.expiresAt > now
    && (network == ANY_NETWORK || network == s.networkId) && s.generation >= generation
    && me in Members(s) && Addresses(Members(s)[me]) != []
  }

  class Node {
    const id: Key32
    /** The configured network. */
    const network: seq<Byte>
    /** Whether a server key is configured, so that signatures and credentials are checked. */
    const secured: bool
    var peers: map<Key32, Peer>
    var sessions: map<U64, Key32>
    var routes: RouteTable
    var networkId: seq<Byte>
    var localIpv4: Option<Ipv4>
    var localIpv6: Option<Ipv6>
    var generation: U64
    var expiresAt: U64

    constructor (id: Key32, network: seq<Byte>, secured: bool)
      ensures this.id == id && this.network == network && this.secured == secured
      ensures peers == map[] && sessions == map[] && generation == 0
      ensures fresh(routes) && routes.local == [] && routes.routes == map[]
    {
      this.id, this.network, this.secured := id, network, secured;
      peers, sessions, networkId := map[], map[], network;
      localIpv4, localIpv6, generation, expiresAt := None, None, 0, 0;
      routes := new RouteTable([]);
    }

    ghost predicate Admissible(hash: Hash, s: NetworkSnapshot, signed: bool, now: nat)
      reads this
    {
      AdmissibleTo(id, network, secured, generation, hash, s, signed, now)
    }

    /** The checks before anything changes; the local record when they pass. */
    method Screen(hash: Hash, s: NetworkSnapshot, signed: bool, now: nat) returns (r: Result<PeerInfo, Error>)
      ensures r.Ok? <==> Admissible(hash, s, signed, now)
      ensures r.Ok? ==> r.value == Members(s)[id]
      ensures r.Err? ==> !r.error.PeerRejected?
    {
      if secured && !signed { return Err(BadSignature); }
      var defect := Validate(hash, s);
      if defect.Some? { return Err(Invalid(defect.value)); }
      if s.expiresAt <= now { return Err(SnapshotExpired); }
      if network != ANY_NETWORK && network != s.networkId { return Err(NetworkMismatch); }
      if s.generation < generation { return Err(StaleSnapshot); }
      var i := 0;
      while i < |s.peers| && s.peers[i].nodeId != id
        invariant i <= |s.peers| && forall k | 0 <= k < i :: s.peers[k].nodeId != id
      {
        i := i + 1;
      }
      if i == |s.peers| {
        NotListed(s.peers, |s.peers|, id);
        return Err(LocalPeerMissing);
      }
      ListingAt(s.peers, |s.peers|, i);
      if Addresses(s.peers[i]) == [] { return Err(LocalAddressMissing); }
      return Ok(s.peers[i]);
    }

    /** The loop that brings known peers up to date in place and collects the new table. It may
        stop part way, at a peer whose credential is refused. */
    method RefreshPeers(s: NetworkSnapshot, check: PeerInfo -> bool)
      returns (r: Result<map<Key32, Peer>, Error>, ghost reached: nat)
      requires DistinctPeers(s.peers) && Indexed(sessions, peers)
      modifies this`peers, this`sessions
      ensures reached <= |s.peers|
      ensures r.Ok? <==> reached == |s.peers|
      ensures forall i | 0 <= i < reached :: secured ==> check(s.peers[i])
      ensures r.Ok? ==> r.value == Replacement(old(peers), Listing(s.peers, reached), id, Online(s))
      ensures r.Err? ==> secured && !check(s.peers[reached]) && r.error == PeerRejected(s.peers[reached].nodeId)
      ensures peers == Touched(old(peers), Listing(s.peers, reached), id, Online(s))
      ensures sessions == SessionsKept(old(sessions), old(peers), Listing(s.peers, reached), id)
    {
      var online := Online(s);
      var replacement: map<Key32, Peer> := map[];
      reached := 0;
      ghost var peers0, sessions0, listed: map<Key32, PeerInfo> := peers, sessions, map[];
      TouchedNone(peers, id, online);
      for i := 0 to |s.peers|
        invariant reached == i && listed == Listing(s.peers, i)
        invariant forall k | 0 <= k < i :: secured ==> check(s.peers[k])
        invariant RefreshedTo(peers0, sessions0, listed, id, online, peers, sessions, replacement)
      {
        var info := s.peers[i];
        if secured && !check(info) {
          return Err(PeerRejected(info.nodeId)), reached;
        }
        NotListed(s.peers, i, info.nodeId);
        replacement := RefreshRecord(info, online, replacement, peers0, sessions0, listed);
        listed := listed[info.nodeId := info];
        reached := i + 1;
      }
      return Ok(replacement), reached;
    }

    /** One record: a known peer is brought up to date in place, an unknown one added. */
    method RefreshRecord(info: PeerInfo, online: set<Key32>, before: map<Key32, Peer>, ghost peers0: map<Key32, Peer>,
                         ghost sessions0: map<U64, Key32>, ghost listed: map<Key32, PeerInfo>)
      returns (replacement: map<Key32, Peer>)
      requires Indexed(sessions0, peers0) && info.nodeId !in listed
      requires RefreshedTo(peers0, sessions0, listed, id, online, peers, sessions, before)
      modifies this`peers, this`sessions
      ensures RefreshedTo(peers0, sessions0, listed[info.nodeId := info], id, online, peers, sessions, replacement)
    {
      replacement := before;
      if info.nodeId != id && info.nodeId in peers {
        RefreshKnown(peers0, sessions0, listed, id, online, peers, sessions, replacement, info);
        var peer := peers[info.nodeId];
        if !CanRetain(peer, info) {
          sessions := DropSession(sessions, Some(peer), info.nodeId);
        }
        peer := Refreshed(peer, info, info.nodeId in online);
        peers := peers[info.nodeId := peer];
        replacement := replacement[info.nodeId := peer];
      } else {
        RefreshOther(peers0, sessions0, listed, id, online, peers, sessions, replacement, info);
        if info.nodeId != id {
          replacement := replacement[info.nodeId := Fresh(info, info.nodeId in online)];
        }
      }
    }

    /** Drops the sessions of the peers that are not in the new table. */
    method RemoveStale(peersBefore: map<Key32, Peer>)
      requires Indexed(sessions, peersBefore)
      modifies this`sessions
      ensures sessions == SessionsIn(old(sessions), peers.Keys)
    {
      var left := peersBefore.Keys;
      while left != {}
        invariant left <= peersBefore.Keys
        invariant sessions == SessionsIn(old(sessions), peers.Keys + left)
        decreases |left|
      {
        var n :| n in left;
        if n !in peers {
          RemoveOne(old(sessions), peersBefore, peers.Keys, left, n);
          sessions := DropSession(sessions, Some(peersBefore[n]), n);
        } else {
          assert peers.Keys + (left - {n}) == peers.Keys + left;
        }
        left := left - {n};
      }
    }

    /** A node's own view of its routes: to its members, each at its own addresses. */
    ghost predicate Aligned()
      reads this, routes
    {
      RoutesOf(routes.routes, Infos(peers))
    }

    /** The replacement of table, routes and snapshot fields. */
    method Install(s: NetworkSnapshot, local: PeerInfo, table: map<Key32, Peer>)
      requires Indexed(sessions, peers)
      requires (forall n | n in table :: table[n].info.nodeId == n) && DistinctAddresses(Infos(table))
      modifies this
      ensures generation == s.generation && expiresAt == s.expiresAt && networkId == s.networkId
      ensures localIpv4 == local.ipv4 && localIpv6 == local.ipv6
      ensures peers == table && sessions == SessionsIn(old(sessions), table.Keys)
      ensures fresh(routes) && routes.local == Addresses(local) && Aligned()
    {
      var replaced := peers;
      peers := table;
      routes := BuildRoutes(Addresses(local), table);
      networkId, localIpv4, localIpv6 := s.networkId, local.ipv4, local.ipv6;
      generation, expiresAt := s.generation, s.expiresAt;
      RemoveStale(replaced);
    }

    /** Replaces the membership view, or refuses and leaves routes and generation as they were. */
    method ApplySnapshot(hash: Hash, s: NetworkSnapshot, signed: bool, now: nat, check: PeerInfo -> bool)
      returns (r: Result<(), Error>, ghost reached: nat)
      requires Indexed(sessions, peers)
      modifies this
      ensures Indexed(sessions, peers) && generation >= old(generation)
      ensures r.Ok? <==> old(Admissible(hash, s, signed, now)) && forall i | 0 <= i < |s.peers| :: secured ==> check(s.peers[i])
      ensures r.Ok? ==>
        && generation == s.generation && expiresAt == s.expiresAt && networkId == s.networkId
        && localIpv4 == Members(s)[id].ipv4 && localIpv6 == Members(s)[id].ipv6
        && peers == Replacement(old(peers), Members(s), id, Online(s))
        && sessions == SessionsIn(SessionsKept(old(sessions), old(peers), Members(s), id), peers.Keys)
        && fresh(routes) && routes.local == Addresses(Members(s)[id]) && Aligned()
      ensures r.Err? ==>
        && generation == old(generation) && expiresAt == old(expiresAt) && networkId == old(networkId)
        && localIpv4 == old(localIpv4) && localIpv6 == old(localIpv6) && routes == old(routes) && unchanged(old(routes))
        && reached <= |s.peers|
        && (r.error.PeerRejected? <==> old(Admissible(hash, s, signed, now)))
        && (r.error.PeerRejected? || reached == 0)
        && (r.error.PeerRejected? ==>
              reached < |s.peers| && secured && !check(s.peers[reached]) && forall i | 0 <= i < reached :: check(s.peers[i]))
        && peers == Touched(old(peers), Listing(s.peers, reached), id, Online(s))
        && sessions == SessionsKept(old(sessions), old(peers), Listing(s.peers, reached), id)
    {
      reached := 0;
      var local := Screen(hash, s, signed, now);
      if local.Err? {
        TouchedNone(peers, id, Online(s));
        return Err(local.error), reached;
      }
      ghost var peersBefore, sessionsBefore := peers, sessions;
      var refreshed;
      refreshed, reached := RefreshPeers(s, check);
      KeptIndexed(sessionsBefore, peersBefore, Listing(s.peers, reached), id, Online(s));
      if refreshed.Err? {
        return Err(refreshed.error), reached;
      }
      ReplacementInfos(hash, s, peersBefore, id);
      StaleIndexed(sessionsBefore, peersBefore, Members(s), id, Online(s));
      Install(s, local.value, refreshed.value);
      return Ok(()), reached;
    }

    /** What is left to say of a snapshot that is taken over. */
    method Accept(hash: Hash, s: NetworkSnapshot, check: PeerInfo -> bool)
      requires Indexed(sessions, peers) && Admissible(hash, s, true, 0)
      requires forall i | 0 <= i < |s.peers| :: check(s.peers[i])
      modifies this
      ensures Indexed(sessions, peers) && generation == s.generation
      ensures fresh(routes) && Infos(peers) == Members(s) - {id} && Aligned()
    {
      ghost var before := peers;
      var r, reached := ApplySnapshot(hash, s, true, 0, check);
      RecordsReplaced(before, Members(s), id, Online(s));
    }

    /** And of one that is admissible but refused at its peer `k`. */
    method Refuse(hash: Hash, s: NetworkSnapshot, check: PeerInfo -> bool, k: nat)
      requires Indexed(sessions, peers) && Admissible(hash, s, true, 0) && secured
      requires k < |s.peers| && !check(s.peers[k]) && forall i | 0 <= i < k :: check(s.peers[i])
      modifies this
      ensures generation == old(generation) && routes == old(routes) && unchanged(old(routes))
      ensures peers == Touched(old(peers), Listing(s.peers, k), id, Online(s))
    {
      var r, reached := ApplySnapshot(hash, s, true, 0, check);
      assert r.Err? && r.error.PeerRejected?;
      assert reached == k;
    }
  }

  function Online(s: NetworkSnapshot): set<Key32> {
    set i | 0 <= i < |s.online| :: s.online[i]
  }

  /** The sessions whose peer is in `ids`. */
  ghost function SessionsIn(sessions: map<U64, Key32>, ids: set<Key32>): map<U64, Key32> {
    map sid | sid in sessions && sessions[sid] in ids :: sessions[sid]
  }

  lemma {:induction false} RemoveOne(sessions: map<U64, Key32>, peers: map<Key32, Peer>, keep: set<Key32>, left: set<Key32>, n: Key32)
    requires Indexed(sessions, peers) && n in peers && n in left && n !in keep
    ensures SessionsIn(sessions, keep + (left - {n})) == DropSession(SessionsIn(sessions, keep + left), Some(peers[n]), n)
  {
  }

  lemma {:induction false} TouchedNone(peers: map<Key32, Peer>, me: Key32, online: set<Key32>)
    ensures Touched(peers, map[], me, online) == peers
    ensures forall sessions: map<U64, Key32> :: SessionsKept(sessions, peers, map[], me) == sessions
  {
  }

  /** The index stays true of the table as the loop leaves it. */
  lemma {:induction false} KeptIndexed(sessions: map<U64, Key32>, peers: map<Key32, Peer>, listed: map<Key32, PeerInfo>, me: Key32, online: set<Key32>)
    requires Indexed(sessions, peers)
    ensures Indexed(SessionsKept(sessions, peers, listed, me), Touched(peers, listed, me, online))
  {
  }

  lemma {:induction false} StaleIndexed(sessions: map<U64, Key32>, peers: map<Key32, Peer>, listed: map<Key32, PeerInfo>, me: Key32, online: set<Key32>)
    requires Indexed(sessions, peers)
    ensures var after := Replacement(peers, listed, me, online);
      Indexed(SessionsIn(SessionsKept(sessions, peers, listed, me), after.Keys), after)
  {
  }

  lemma {:induction false} RecordsReplaced(peers: map<Key32, Peer>, members: map<Key32, PeerInfo>, me: Key32, online: set<Key32>)
    ensures Infos(Replacement(peers, members, me, online)) == members - {me}
  {
  }

  lemma {:induction false} ReplacementInfos(hash: Hash, s: NetworkSnapshot, peers: map<Key32, Peer>, me: Key32)
    requires Snapshot.Valid(hash, s)
    ensures var after := Replacement(peers, Members(s), me, Online(s));
      && Infos(after) == Members(s) - {me}
      && (forall id | id in after :: after[id].info.nodeId == id)
      && DistinctAddresses(Infos(after))
  {
    var after := Replacement(peers, Members(s), me, Online(s));
    RecordsReplaced(peers, Members(s), me, Online(s));
    forall id | id in after ensures after[id].info.nodeId == id {
      assert after[id].info == Infos(after)[id];
      var i := ListingIn(s.peers, |s.peers|, id);
    }
    ValidAddressesDistinct(hash, s);
  }

  lemma {:induction false} NotListed(peers: seq<PeerInfo>, n: nat, id: Key32)
    requires n <= |peers| && forall k | 0 <= k < n :: peers[k].nodeId != id
    ensures id !in Listing(peers, n)
  {
    if n > 0 {
      NotListed(peers, n - 1, id);
    }
  }

  // ---------------------------------------------------------------- what an applied snapshot promises

  /** With the routes of an accepted snapshot, a packet goes to `n` exactly when its source is one
      of this node's addresses and its destination one of the addresses of the remote member `n`. */
  lemma {:induction false} OutboundExactly(hash: Hash, s: NetworkSnapshot, me: Key32, table: RouteTable, packet: IpPacket, n: Key32)
    requires Snapshot.Valid(hash, s) && me in Members(s)
    requires table.local == Addresses(Members(s)[me]) && RoutesOf(table.routes, Members(s) - {me})
    ensures table.ValidateOutbound(packet) == Ok(n) <==>
      && Owns(Members(s)[me], packet.source)
      && n in Members(s) && n != me && Owns(Members(s)[n], packet.destination)
  {
    OwnsAddresses(Members(s)[me], packet.source);
    var infos, a := Members(s) - {me}, packet.destination;
    RouteTo(table.routes, infos, a, n);
    assert n in infos ==> infos[n] == Members(s)[n];
  }

  lemma {:induction false} RouteTo(routes: map<IpAddr, NodeId>, infos: map<Key32, PeerInfo>, a: IpAddr, n: Key32)
    requires RoutesOf(routes, infos)
    ensures a in routes && routes[a] == n <==> n in infos && Owns(infos[n], a)
  {
  }

  /** What a session is bound to: the peer's identity and addresses, and a path that the peer
      still offers unless its candidates are as before. */
  ghost predicate Bound(peer: Peer, next: PeerInfo)
    requires peer.active.Some?
  {
    && SameIdentity(peer.info, next)
    && (peer.info.candidates == next.candidates || exists c | c in next.candidates :: c.address == peer.active.value.path)
  }

  /** A session outlives a snapshot exactly when its peer is a remote member there and still what
      the session is bound to; it is then the same session. */
  lemma {:induction false} SessionSurvivesExactly(sessions: map<U64, Key32>, peers: map<Key32, Peer>, members: map<Key32, PeerInfo>, me: Key32, online: set<Key32>, sid: U64)
    requires Indexed(sessions, peers) && sid in sessions
    ensures var after := Replacement(peers, members, me, online);
      var n := sessions[sid];
      && (sid in SessionsIn(SessionsKept(sessions, peers, members, me), after.Keys) <==>
            n in members && n != me && Bound(peers[n], members[n]))
      && (n in members && n != me && Bound(peers[n], members[n]) ==> after[n].active == peers[n].active)
  {
  }

  /** A refused snapshot that was partly taken over leaves routes and peer records in agreement
      exactly when none of the known peers before the refused one changed its addresses. */
  lemma {:induction false} RefusedStaysAlignedExactly(routes: map<IpAddr, NodeId>, peers: map<Key32, Peer>, listed: map<Key32, PeerInfo>, me: Key32, online: set<Key32>)
    requires RoutesOf(routes, Infos(peers))
    ensures RoutesOf(routes, Infos(Touched(peers, listed, me, online))) <==>
      forall n | n in peers && n in listed && n != me :: SameAddresses(listed[n], peers[n].info)
  {
    var before, after := Infos(peers), Infos(Touched(peers, listed, me, online));
    TouchedInfos(peers, listed, me, online);
    AlignedExactly(routes, before, after);
    if RoutesOf(routes, after) {
      forall n | n in peers && n in listed && n != me ensures SameAddresses(listed[n], peers[n].info) {
        assert after[n] == listed[n] && before[n] == peers[n].info;
      }
    }
  }

  // A node that has taken over one snapshot is sent a second one, in which a known peer has another
  // address and the peer after it has a credential that is refused.

  function Record(hash: Hash, key: Key32, host: Byte): PeerInfo {
    PeerInfo(hash(key), 0, key, key, [], Some([0, 0, 0, host]), None, [], [])
  }

  function Plain(generation: U64, peers: seq<PeerInfo>): NetworkSnapshot {
    NetworkSnapshot(ANY_NETWORK, generation, Some(Cidr4([0, 0, 0, 0], 0)), None, [], [], peers, [], 1, [])
  }

  lemma {:induction false} AnyHost(host: Byte)
    ensures InNetwork([0, 0, 0, 0], [0, 0, 0, host], 0)
  {
    var zero: seq<Byte> := [0, 0, 0, 0];
    assert zero[..3] == [0, 0, 0] && [0, 0, 0][..2] == [0, 0] && [0, 0][..1] == [0];
    assert Number(zero) == 0;
  }

  lemma {:induction false} PlainValid(hash: Hash, generation: U64, peers: seq<PeerInfo>)
    requires generation != 0 && DistinctPeers(peers) && Named(hash, peers) && DistinctIpv4(peers)
    requires forall i | 0 <= i < |peers| :: peers[i].ipv6.None? && exists host: Byte :: peers[i].ipv4 == Some([0, 0, 0, host])
    ensures Snapshot.Valid(hash, Plain(generation, peers))
  {
    AnyHost(0);
    forall i | 0 <= i < |peers| ensures Ipv4Ok(Some(Cidr4([0, 0, 0, 0], 0)), peers[i].ipv4) {
      var host: Byte :| peers[i].ipv4 == Some([0, 0, 0, host]);
      AnyHost(host);
    }
  }

  function First(hash: Hash, mine: Key32, known: Key32): NetworkSnapshot {
    Plain(1, [Record(hash, mine, 1), Record(hash, known, 2)])
  }

  function Second(hash: Hash, mine: Key32, known: Key32, refused: Key32): NetworkSnapshot {
    Plain(2, [Record(hash, mine, 1), Record(hash, known, 4), Record(hash, refused, 3)])
  }

  predicate Different(hash: Hash, mine: Key32, known: Key32, refused: Key32) {
    hash(mine) != hash(known) && hash(known) != hash(refused) && hash(refused) != hash(mine)
  }

  lemma {:induction false} FirstAdmissible(hash: Hash, mine: Key32, known: Key32)
    requires hash(mine) != hash(known)
    ensures AdmissibleTo(hash(mine), ANY_NETWORK, true, 0, hash, First(hash, mine, known), true, 0)
    ensures hash(known) in Members(First(hash, mine, known)) && Members(First(hash, mine, known))[hash(known)] == Record(hash, known, 2)
  {
    var s := First(hash, mine, known);
    PlainValid(hash, 1, s.peers);
    ListingAt(s.peers, 2, 0);
    ListingAt(s.peers, 2, 1);
  }

  lemma {:induction false} SecondAdmissible(hash: Hash, mine: Key32, known: Key32, refused: Key32)
    requires Different(hash, mine, known, refused)
    ensures AdmissibleTo(hash(mine), ANY_NETWORK, true, 1, hash, Second(hash, mine, known, refused), true, 0)
    ensures var listed := Listing(Second(hash, mine, known, refused).peers, 2);
      hash(known) in listed && listed[hash(known)] == Record(hash, known, 4)
  {
    var s := Second(hash, mine, known, refused);
    PlainValid(hash, 2, s.peers);
    ListingAt(s.peers, 3, 0);
    ListingAt(s.peers, 2, 1);
  }

  lemma {:induction false} MovedMisaligns(routes: map<IpAddr, NodeId>, peers: map<Key32, Peer>, listed: map<Key32, PeerInfo>, me: Key32, online: set<Key32>, n: Key32)
    requires RoutesOf(routes, Infos(peers))
    requires n in Infos(peers) && n in listed && n != me && !SameAddresses(listed[n], Infos(peers)[n])
    ensures !RoutesOf(routes, Infos(Touched(peers, listed, me, online)))
  {
    RefusedStaysAlignedExactly(routes, peers, listed, me, online);
    assert n in peers && peers[n].info == Infos(peers)[n];
  }

  /** Both snapshots are admissible to a secured node. When the second one is refused at its third
      peer, the record of the second peer has moved away from the routes of the first snapshot. */
  lemma {:induction false} RefusedCanMisalign(hash: Hash, mine: Key32, known: Key32, refused: Key32, peers: map<Key32, Peer>, routes: map<IpAddr, NodeId>)
    requires Different(hash, mine, known, refused)
    requires Infos(peers) == Members(First(hash, mine, known)) - {hash(mine)} && RoutesOf(routes, Infos(peers))
    ensures var me, first, second := hash(mine), First(hash, mine, known), Second(hash, mine, known, refused);
      && AdmissibleTo(me, ANY_NETWORK, true, 0, hash, first, true, 0)
      && AdmissibleTo(me, ANY_NETWORK, true, first.generation, hash, second, true, 0)
      && !RoutesOf(routes, Infos(Touched(peers, Listing(second.peers, 2), me, Online(second))))
  {
    var second := Second(hash, mine, known, refused);
    FirstAdmissible(hash, mine, known);
    SecondAdmissible(hash, mine, known, refused);
    assert [0, 0, 0, 4][3] == 4 && [0, 0, 0, 2][3] == 2;
    MovedMisaligns(routes, peers, Listing(second.peers, 2), hash(mine), Online(second), hash(known));
  }

  /** A new node takes over one snapshot and refuses the next at its peer `k`. */
  method OneThenRefused(me: Key32, hash: Hash, first: NetworkSnapshot, second: NetworkSnapshot, check: PeerInfo -> bool, k: nat)
    returns (node: Node, ghost before: map<Key32, Peer>)
    requires AdmissibleTo(me, ANY_NETWORK, true, 0, hash, first, true, 0)
    requires AdmissibleTo(me, ANY_NETWORK, true, first.generation, hash, second, true, 0)
    requires forall i | 0 <= i < |first.peers| :: check(first.peers[i])
    requires k < |second.peers| && !check(second.peers[k]) && forall i | 0 <= i < k :: check(second.peers[i])
    ensures fresh(node) && node.generation == first.generation
    ensures Infos(before) == Members(first) - {me} && RoutesOf(node.routes.routes, Infos(before))
    ensures node.peers == Touched(before, Listing(second.peers, k), me, Online(second))
  {
    node := new Node(me, ANY_NETWORK, true);
    node.Accept(hash, first, check);
    before := node.peers;
    node.Refuse(hash, second, check, k);
  }

  /** The same as a run of the code: one snapshot taken over and one refused leave the routes and
      the records of a node in disagreement. */
  method MisalignedRun(hash: Hash, mine: Key32, known: Key32, refused: Key32) returns (node: Node)
    requires Different(hash, mine, known, refused)
    ensures fresh(node) && node.generation == 1 && !node.Aligned()
  {
    var first, second := First(hash, mine, known), Second(hash, mine, known, refused);
    var check := (info: PeerInfo) => info.nodeId != hash(refused);
    FirstAdmissible(hash, mine, known);
    SecondAdmissible(hash, mine, known, refused);
    ghost var before;
    node, before := OneThenRefused(hash(mine), hash, first, second, check, 2);
    RefusedCanMisalign(hash, mine, known, refused, before, node.routes.routes);
  }

  predicate SameAddresses(a: PeerInfo, b: PeerInfo) {
    a.ipv4 == b.ipv4 && a.ipv6 == b.ipv6
  }

  lemma {:induction false} TouchedInfos(peers: map<Key32, Peer>, listed: map<Key32, PeerInfo>, me: Key32, online: set<Key32>)
    ensures Infos(Touched(peers, listed, me, online)) ==
      map n | n in peers :: if n in listed && n != me then listed[n] else peers[n].info
  {
  }

  lemma {:induction false} AlignedExactly(routes: map<IpAddr, NodeId>, before: map<Key32, PeerInfo>, after: map<Key32, PeerInfo>)
    requires RoutesOf(routes, before) && before.Keys == after.Keys
    ensures RoutesOf(routes, after) <==> forall n | n in before :: SameAddresses(after[n], before[n])
  {
    if RoutesOf(routes, after) {
      forall n | n in before ensures SameAddresses(after[n], before[n]) {
        SameRoutesSameAddresses(routes, before, after, n);
      }
    } else if forall n | n in before :: SameAddresses(after[n], before[n]) {
      SameAddressesSameRoutes(routes, before, after);
    }
  }

  lemma {:induction false} SameAddressesSameRoutes(routes: map<IpAddr, NodeId>, before: map<Key32, PeerInfo>, after: map<Key32, PeerInfo>)
    requires RoutesOf(routes, before) && before.Keys == after.Keys && forall n | n in before :: SameAddresses(after[n], before[n])
    ensures RoutesOf(routes, after)
  {
  }

  lemma {:induction false} SameRoutesSameAddresses(routes: map<IpAddr, NodeId>, before: map<Key32, PeerInfo>, after: map<Key32, PeerInfo>, n: Key32)
    requires RoutesOf(routes, before) && RoutesOf(routes, after) && n in before && n in after
    ensures SameAddresses(after[n], before[n])
  {
    var x, y := before[n], after[n];
    forall a ensures Owns(x, a) <==> Owns(y, a) {
      RouteTo(routes, before, a, n);
      RouteTo(routes, after, a, n);
    }
    if x.ipv4.Some? { assert Owns(x, V4(x.ipv4.value)); }
    if y.ipv4.Some? { assert Owns(y, V4(y.ipv4.value)); }
    if x.ipv6.Some? { assert Owns(x, V6(x.ipv6.value)); }
    if y.ipv6.Some? { assert Owns(y, V6(y.ipv6.value)); }
  }
}
