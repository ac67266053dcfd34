/** The batched sender: parse, route, prepare peer run by peer run, send in groups that may stop
    half way or fail after a part went out, and fill one result slot per input packet. The whole
    batch is proved equal to a reference that looks at one packet after the other; what the
    batch promises is proved about that reference. */
module SendBatch {
  import opened Base
  import opened Ip
  import opened SendPrepare

  datatype Settings = Settings(virtualMtu: nat, maxPayload: nat, queueLimit: nat, dataWorkers: nat)

  /** How the socket ended one batched send: it took so many, or it failed after taking some. */
  datatype SocketOutcome = Accepted(count: nat) | SocketError(taken: nat)

  /** What one batch meets: whether the snapshot has expired when the group starting at a routed
      packet is prepared, which encryption tasks of that group crash, and how the socket ends the
      send of the group starting at a prepared packet. */
  datatype World = World(expired: nat -> bool, crashes: (nat, nat) -> bool, socket: nat -> SocketOutcome)

  datatype Routed = Routed(index: nat, ip: IpPacket, peer: NodeId)

  /** A batch once its packets are routed, with the peers as they are then. */
  datatype Batch = Batch(settings: Settings, world: World, peers: map<NodeId, Peer>, routed: seq<Routed>)

  type Slot = Option<Result<(), SendError>>

  // ---------------------------------------------------------------- runs of equal keys

  function RunBegin<K(==)>(keys: seq<K>, k: nat): (begin: nat)
    requires k < |keys|
    ensures begin <= k
  {
    if k == 0 || keys[k - 1] != keys[k] then k else RunBegin(keys, k - 1)
  }

  function RunEnd<K(==)>(keys: seq<K>, k: nat): (end: nat)
    requires k < |keys|
    ensures k < end <= |keys|
    decreases |keys| - k
  {
    if k + 1 == |keys| || keys[k + 1] != keys[k] then k + 1 else RunEnd(keys, k + 1)
  }

  ghost predicate IsRun<K>(keys: seq<K>, lo: nat, hi: nat) {
    && lo < hi <= |keys|
    && (forall k | lo <= k < hi :: keys[k] == keys[lo])
    && (lo > 0 ==> keys[lo - 1] != keys[lo])
    && (hi < |keys| ==> keys[hi] != keys[lo])
  }

  lemma {:induction false} BeginOfRun<K>(keys: seq<K>, lo: nat, hi: nat, k: nat)
    requires IsRun(keys, lo, hi) && lo <= k < hi
    ensures RunBegin(keys, k) == lo
  {
    if k > lo {
      BeginOfRun(keys, lo, hi, k - 1);
    }
  }

  lemma {:induction false} EndOfRun<K>(keys: seq<K>, lo: nat, hi: nat, k: nat)
    requires IsRun(keys, lo, hi) && lo <= k < hi
    ensures RunEnd(keys, k) == hi
    decreases hi - k
  {
    if k + 1 < hi {
      EndOfRun(keys, lo, hi, k + 1);
    }
  }

  function PeerKeys(routed: seq<Routed>): (keys: seq<NodeId>)
    ensures |keys| == |routed| && forall k {:trigger keys[k]} | 0 <= k < |keys| :: keys[k] == routed[k].peer
  {
    seq(|routed|, k requires 0 <= k < |routed| => routed[k].peer)
  }

  type WireKey = (NodeId, U64, Addr)

  function KeyOf(p: Prepared): WireKey { (p.peer, p.sessionId, p.path) }

  function WireKeys(prepared: seq<Prepared>): (keys: seq<WireKey>)
    ensures |keys| == |prepared| && forall k {:trigger keys[k]} | 0 <= k < |keys| :: keys[k] == KeyOf(prepared[k])
  {
    seq(|prepared|, k requires 0 <= k < |prepared| => KeyOf(prepared[k]))
  }

  // ---------------------------------------------------------------- the reference: routing

  /** Where a packet goes, under one view of routes and members. */
  function RouteIn(local: set<IpAddr>, routes: map<IpAddr, NodeId>, members: set<NodeId>, payload: seq<Byte>)
    : (r: Result<(IpPacket, NodeId), SendError>)
    ensures r.Ok? ==> r.value.0.bytes == payload && r.value.1 in members
  {
    match Parse(payload)
    case Err(e) => Err(IpFailure(e))
    case Ok(ip) =>
      if ip.source !in local then Err(IpFailure(SourceNotLocal(ip.source)))
      else if ip.destination !in routes then Err(IpFailure(DestinationUnknown(ip.destination)))
      else if routes[ip.destination] !in members then Err(UnknownPeer)
      else Ok((ip, routes[ip.destination]))
  }

  type RouteResult = Result<(IpPacket, NodeId), SendError>

  function RouteAll(local: set<IpAddr>, routes: map<IpAddr, NodeId>, members: set<NodeId>, packets: seq<seq<Byte>>): (found: seq<RouteResult>)
    ensures |found| == |packets|
    ensures forall i {:trigger found[i]} | 0 <= i < |found| :: found[i] == RouteIn(local, routes, members, packets[i])
  {
    seq(|packets|, i requires 0 <= i < |packets| => RouteIn(local, routes, members, packets[i]))
  }

  /** The packets that can be routed, in input order. */
  function RoutedOf(found: seq<RouteResult>): (routed: seq<Routed>)
    ensures Rising(routed, |found|)
    ensures forall k | 0 <= k < |routed| :: found[routed[k].index] == Ok((routed[k].ip, routed[k].peer))
  {
    if found == [] then []
    else
      var n := |found| - 1;
      var before := RoutedOf(found[..n]);
      match found[n]
      case Err(_) => before
      case Ok(pair) => before + [Routed(n, pair.0, pair.1)]
  }

  predicate Rising(routed: seq<Routed>, n: nat) {
    && (forall k | 0 <= k < |routed| :: routed[k].index < n)
    && (forall j, k | 0 <= j < k < |routed| :: routed[j].index < routed[k].index)
  }

  /** No routable packet is left behind. */
  lemma {:induction false} RoutedHas(found: seq<RouteResult>, i: nat) returns (k: nat)
    requires i < |found| && found[i].Ok?
    ensures k < |RoutedOf(found)| && RoutedOf(found)[k].index == i
  {
    var n := |found| - 1;
    if i == n {
      k := |RoutedOf(found[..n])|;
    } else {
      k := RoutedHas(found[..n], i);
    }
  }

  // ---------------------------------------------------------------- the reference: preparation

  predicate Routable(b: Batch) {
    forall k | 0 <= k < |b.routed| :: b.routed[k].peer in b.peers
  }

  function Begin(b: Batch, k: nat): (begin: nat)
    requires k < |b.routed|
    ensures begin <= k
  {
    RunBegin(PeerKeys(b.routed), k)
  }

  /** The settings a group is prepared under. */
  function ConfigFor(b: Batch, begin: nat): Config {
    Config(b.settings.virtualMtu, b.settings.maxPayload, b.settings.queueLimit, b.settings.dataWorkers, b.world.expired(begin))
  }

  function CrashesIn(w: World, begin: nat): nat -> bool {
    (task: nat) => w.crashes(begin, task)
  }

  /** The turn of one routed packet: under which settings, for which peer, which packet. */
  datatype Turn = Turn(config: Config, peer: NodeId, ip: IpPacket)

  function TurnAt(b: Batch, k: nat): Turn
    requires k < |b.routed|
  {
    Turn(ConfigFor(b, Begin(b, k)), b.routed[k].peer, b.routed[k].ip)
  }

  /** The turns of the first `n` routed packets. */
  function TurnsTo(b: Batch, n: nat): (turns: seq<Turn>)
    requires n <= |b.routed|
    ensures |turns| == n
  {
    if n == 0 then [] else TurnsTo(b, n - 1) + [TurnAt(b, n - 1)]
  }

  function TurnsOf(b: Batch): (turns: seq<Turn>)
    ensures |turns| == |b.routed|
  {
    TurnsTo(b, |b.routed|)
  }

  lemma {:induction false} TurnIs(b: Batch, n: nat, k: nat)
    requires k < n <= |b.routed|
    ensures TurnsTo(b, n)[k] == TurnAt(b, k)
  {
    if k < n - 1 {
      TurnIs(b, n - 1, k);
    }
  }

  predicate Known(turns: seq<Turn>, peers: map<NodeId, Peer>) {
    forall k | 0 <= k < |turns| :: turns[k].peer in peers
  }

  /** The peers after the first `n` packets were prepared one by one. */
  function Fold(peers: map<NodeId, Peer>, turns: seq<Turn>, n: nat): (after: map<NodeId, Peer>)
    requires Known(turns, peers) && n <= |turns|
    ensures after.Keys == peers.Keys
  {
    if n == 0 then peers
    else
      var before, t := Fold(peers, turns, n - 1), turns[n - 1];
      before[t.peer := AfterOne(t.config, before[t.peer], t.ip)]
  }

  lemma {:induction false} TurnsKnown(b: Batch)
    requires Routable(b)
    ensures Known(TurnsOf(b), b.peers)
  {
    forall k | 0 <= k < |b.routed| ensures TurnsOf(b)[k].peer in b.peers {
      TurnIs(b, |b.routed|, k);
    }
  }

  function PeersAt(b: Batch, n: nat): (peers: map<NodeId, Peer>)
    requires Routable(b) && n <= |b.routed|
    ensures peers.Keys == b.peers.Keys
  {
    TurnsKnown(b);
    Fold(b.peers, TurnsOf(b), n)
  }

  /** What the packet of turn `k` gets. */
  function AtTurn(peers: map<NodeId, Peer>, turns: seq<Turn>, k: nat): Preparation
    requires Known(turns, peers) && k < |turns|
  {
    PrepareOne(turns[k].config, turns[k].peer, Fold(peers, turns, k)[turns[k].peer], turns[k].ip)
  }

  function OneAtATime(b: Batch, k: nat): Preparation
    requires Routable(b) && k < |b.routed|
  {
    TurnsKnown(b);
    AtTurn(b.peers, TurnsOf(b), k)
  }

  function IpsOf(group: seq<Routed>): (ips: seq<IpPacket>)
    ensures |ips| == |group| && forall k {:trigger ips[k]} | 0 <= k < |ips| :: ips[k] == group[k].ip
  {
    seq(|group|, k requires 0 <= k < |group| => group[k].ip)
  }

  /** Packet `k` is encrypted by a task of its group that crashes. */
  predicate TaskLost(b: Batch, k: nat)
    requires Routable(b) && k < |b.routed|
  {
    TaskLostIn(b, Begin(b, k), RunEnd(PeerKeys(b.routed), k), b.routed[k].peer, k)
  }

  predicate TaskLostIn(b: Batch, lo: nat, hi: nat, id: NodeId, k: nat)
    requires Routable(b) && id in b.peers && lo <= k < hi <= |b.routed|
  {
    LosesTask(ConfigFor(b, lo), PeersAt(b, lo)[id], IpsOf(b.routed[lo..hi]), CrashesIn(b.world, lo), k - lo)
  }

  function OutcomeOf(b: Batch, k: nat): Preparation
    requires Routable(b) && k < |b.routed|
  {
    if TaskLost(b, k) then Err(Io) else OneAtATime(b, k)
  }

  function OutcomeTable(b: Batch): nat -> Preparation
    requires Routable(b)
  {
    (k: nat) => if k < |b.routed| then OutcomeOf(b, k) else Err(Io)
  }

  function OutcomesOf(b: Batch): (outcomes: seq<Preparation>)
    requires Routable(b)
    ensures |outcomes| == |b.routed|
  {
    Tabulate(|b.routed|, OutcomeTable(b))
  }

  lemma {:induction false} OutcomeIs(b: Batch, k: nat)
    requires Routable(b) && k < |b.routed|
    ensures OutcomesOf(b)[k] == OutcomeOf(b, k)
  {
    TabulateAt(|b.routed|, OutcomeTable(b), k);
  }

  function Tabulate<T>(n: nat, f: nat -> T): (s: seq<T>)
    ensures |s| == n
  {
    if n == 0 then [] else Tabulate(n - 1, f) + [f(n - 1)]
  }

  lemma {:induction false} TabulateAt<T>(n: nat, f: nat -> T, k: nat)
    requires k < n
    ensures Tabulate(n, f)[k] == f(k)
  {
    if k < n - 1 {
      TabulateAt(n - 1, f, k);
    }
  }

  predicate IsReady(p: Preparation) { p.Ok? && p.value.Some? }

  /** Which of the first `n` packets go on to the socket. */
  function ReadyAt(outcomes: seq<Preparation>, n: nat): (ready: seq<nat>)
    requires n <= |outcomes|
    ensures forall j | 0 <= j < |ready| :: ready[j] < n && IsReady(outcomes[ready[j]])
    ensures forall i, j | 0 <= i < j < |ready| :: ready[i] < ready[j]
  {
    if n == 0 then [] else ReadyAt(outcomes, n - 1) + (if IsReady(outcomes[n - 1]) then [n - 1] else [])
  }

  /** Their datagrams. */
  function PreparedAt(outcomes: seq<Preparation>, n: nat): (prepared: seq<Prepared>)
    requires n <= |outcomes|
    ensures |prepared| == |ReadyAt(outcomes, n)|
  {
    if n == 0 then []
    else PreparedAt(outcomes, n - 1) + (if IsReady(outcomes[n - 1]) then [outcomes[n - 1].value.value] else [])
  }

  lemma {:induction false} PreparedIs(outcomes: seq<Preparation>, n: nat, j: nat)
    requires n <= |outcomes| && j < |PreparedAt(outcomes, n)|
    ensures outcomes[ReadyAt(outcomes, n)[j]] == Ok(Some(PreparedAt(outcomes, n)[j]))
  {
    if j < |PreparedAt(outcomes, n - 1)| {
      PreparedIs(outcomes, n - 1, j);
    }
  }

  function PreparedFrom(outcomes: seq<Preparation>): seq<Prepared> {
    PreparedAt(outcomes, |outcomes|)
  }

  // ---------------------------------------------------------------- the reference: the socket

  function GroupBegin(prepared: seq<Prepared>, k: nat): (begin: nat)
    requires k < |prepared|
    ensures begin <= k
  {
    RunBegin(WireKeys(prepared), k)
  }

  function GroupEnd(prepared: seq<Prepared>, k: nat): (end: nat)
    requires k < |prepared|
    ensures k < end <= |prepared|
  {
    RunEnd(WireKeys(prepared), k)
  }

  /** The socket took the whole group of packet `k` and said so. */
  predicate Fully(prepared: seq<Prepared>, socket: nat -> SocketOutcome, k: nat)
    requires k < |prepared|
  {
    socket(GroupBegin(prepared, k)) == Accepted(GroupEnd(prepared, k) - GroupBegin(prepared, k))
  }

  /** What is reported for packet `k`: an error of the socket fails its whole group. */
  function Reported(prepared: seq<Prepared>, socket: nat -> SocketOutcome, k: nat): Result<(), SendError>
    requires k < |prepared|
  {
    match socket(GroupBegin(prepared, k))
    case Accepted(count) => if k - GroupBegin(prepared, k) < count then Ok(()) else Err(Io)
    case SocketError(_) => Err(Io)
  }

  /** Whether packet `k` went out. */
  predicate WentOut(prepared: seq<Prepared>, socket: nat -> SocketOutcome, k: nat)
    requires k < |prepared|
  {
    match socket(GroupBegin(prepared, k))
    case Accepted(count) => k - GroupBegin(prepared, k) < count
    case SocketError(taken) => k - GroupBegin(prepared, k) < taken
  }

  function Reports(prepared: seq<Prepared>, socket: nat -> SocketOutcome): (results: seq<Result<(), SendError>>)
    ensures |results| == |prepared| && forall k {:trigger results[k]} | 0 <= k < |results| :: results[k] == Reported(prepared, socket, k)
  {
    seq(|prepared|, k requires 0 <= k < |prepared| => Reported(prepared, socket, k))
  }

  function OutMask(prepared: seq<Prepared>, socket: nat -> SocketOutcome): (mask: seq<bool>)
    ensures |mask| == |prepared| && forall k {:trigger mask[k]} | 0 <= k < |mask| :: mask[k] <==> WentOut(prepared, socket, k)
  {
    seq(|prepared|, k requires 0 <= k < |prepared| => WentOut(prepared, socket, k))
  }

  function OkMask(results: seq<Result<(), SendError>>): (mask: seq<bool>)
    ensures |mask| == |results| && forall k | 0 <= k < |mask| :: mask[k] <==> results[k].Ok?
  {
    seq(|results|, k requires 0 <= k < |results| => results[k].Ok?)
  }

  /** One of the first `n` packets is of this session and its group was not fully taken. */
  predicate SessionFails(prepared: seq<Prepared>, socket: nat -> SocketOutcome, n: nat, id: NodeId, sessionId: U64)
    requires n <= |prepared|
  {
    exists k | 0 <= k < n :: prepared[k].peer == id && prepared[k].sessionId == sessionId && !Fully(prepared, socket, k)
  }

  /** Exactly the failed sessions are dropped, with their queues. */
  function Dropped(prepared: seq<Prepared>, socket: nat -> SocketOutcome, n: nat, peers: map<NodeId, Peer>): map<NodeId, Peer>
    requires n <= |prepared|
  {
    map id | id in peers ::
      if peers[id].active.Some? && SessionFails(prepared, socket, n, id, peers[id].active.value.sessionId) then Peer(None, [])
      else peers[id]
  }

  // ---------------------------------------------------------------- the reference: a whole batch

  /** What the caller is told of routed packet `k`. */
  function ResultFor(outcomes: seq<Preparation>, socket: nat -> SocketOutcome, k: nat): Result<(), SendError>
    requires k < |outcomes|
  {
    match outcomes[k]
    case Err(e) => Err(e)
    case Ok(None) => Ok(())
    case Ok(Some(_)) => Place(outcomes, k, |outcomes|); Reported(PreparedFrom(outcomes), socket, |ReadyAt(outcomes, k)|)
  }

  /** A ready packet's place among the prepared ones is the number of ready ones before it. */
  lemma {:induction false} Place(outcomes: seq<Preparation>, k: nat, n: nat)
    requires k < n <= |outcomes| && IsReady(outcomes[k])
    ensures |ReadyAt(outcomes, k)| < |ReadyAt(outcomes, n)| && ReadyAt(outcomes, n)[|ReadyAt(outcomes, k)|] == k
  {
    if k < n - 1 {
      Place(outcomes, k, n - 1);
    }
  }

  /** What goes out. */
  function Outgoing(prepared: seq<Prepared>, socket: nat -> SocketOutcome): seq<Prepared> {
    Select(prepared, OutMask(prepared, socket))
  }

  function PeersAfter(b: Batch): map<NodeId, Peer>
    requires Routable(b)
  {
    var prepared := PreparedFrom(OutcomesOf(b));
    Dropped(prepared, b.world.socket, |prepared|, PeersAt(b, |b.routed|))
  }

  // ---------------------------------------------------------------- groups against the reference

  lemma {:induction false} FoldStep(before: map<NodeId, Peer>, id: NodeId, c: Config, ips: seq<IpPacket>, j: nat, prev: map<NodeId, Peer>)
    requires id in before && j < |ips| && prev == before[id := PeerAfter(c, before[id], ips, j)]
    ensures prev[id := AfterOne(c, prev[id], ips[j])] == before[id := PeerAfter(c, before[id], ips, j + 1)]
  {
  }

  /** From `lo` on, `ips` are the packets of turns of one peer under one configuration. */
  ghost predicate RunTurns(turns: seq<Turn>, lo: nat, c: Config, id: NodeId, ips: seq<IpPacket>) {
    && lo + |ips| <= |turns|
    && forall j {:trigger turns[j]} | lo <= j < lo + |ips| :: turns[j] == Turn(c, id, ips[j - lo])
  }

  /** Preparing a run of turns of one peer in one go leaves the peers where one after the other does. */
  lemma {:induction false} FoldRun(peers: map<NodeId, Peer>, turns: seq<Turn>, lo: nat, c: Config, id: NodeId, ips: seq<IpPacket>, n: nat)
    requires Known(turns, peers) && id in peers && RunTurns(turns, lo, c, id, ips) && n <= |ips|
    ensures var before := Fold(peers, turns, lo);
      Fold(peers, turns, lo + n) == before[id := PeerAfter(c, before[id], ips, n)]
  {
    var before := Fold(peers, turns, lo);
    if n == 0 {
      assert before[id := before[id]] == before;
    } else {
      FoldRun(peers, turns, lo, c, id, ips, n - 1);
      FoldStep(before, id, c, ips, n - 1, Fold(peers, turns, lo + n - 1));
    }
  }

  lemma {:induction false} IpAt(routed: seq<Routed>, lo: nat, hi: nat, k: nat)
    requires lo <= k < hi <= |routed|
    ensures |IpsOf(routed[lo..hi])| == hi - lo && IpsOf(routed[lo..hi])[k - lo] == routed[k].ip
  {
  }

  lemma {:induction false} TurnsInRun(b: Batch, lo: nat, hi: nat)
    requires IsRun(PeerKeys(b.routed), lo, hi)
    ensures RunTurns(TurnsOf(b), lo, ConfigFor(b, lo), b.routed[lo].peer, IpsOf(b.routed[lo..hi]))
  {
    var ips := IpsOf(b.routed[lo..hi]);
    forall j | lo <= j < hi ensures TurnsOf(b)[j] == Turn(ConfigFor(b, lo), b.routed[lo].peer, ips[j - lo]) {
      TurnIs(b, |b.routed|, j);
      RunOf(b, lo, hi, j);
      IpAt(b.routed, lo, hi, j);
    }
  }

  lemma {:induction false} RunOf(b: Batch, lo: nat, hi: nat, k: nat)
    requires IsRun(PeerKeys(b.routed), lo, hi) && lo <= k < hi
    ensures Begin(b, k) == lo && RunEnd(PeerKeys(b.routed), k) == hi && b.routed[k].peer == b.routed[lo].peer
  {
    BeginOfRun(PeerKeys(b.routed), lo, hi, k);
    EndOfRun(PeerKeys(b.routed), lo, hi, k);
    assert PeerKeys(b.routed)[k] == PeerKeys(b.routed)[lo];
  }

  lemma {:induction false} RunTurn(peers: map<NodeId, Peer>, turns: seq<Turn>, lo: nat, c: Config, id: NodeId, ips: seq<IpPacket>, k: nat)
    requires Known(turns, peers) && id in peers && RunTurns(turns, lo, c, id, ips) && lo <= k < lo + |ips|
    ensures AtTurn(peers, turns, k) == PreparationAt(c, id, Fold(peers, turns, lo)[id], ips, k - lo)
  {
    FoldRun(peers, turns, lo, c, id, ips, k - lo);
    assert lo + (k - lo) == k;
  }

  lemma {:induction false} GroupTurn(b: Batch, lo: nat, hi: nat, k: nat)
    requires Routable(b) && IsRun(PeerKeys(b.routed), lo, hi) && lo <= k < hi
    ensures var id := b.routed[lo].peer;
      OneAtATime(b, k) == PreparationAt(ConfigFor(b, lo), id, PeersAt(b, lo)[id], IpsOf(b.routed[lo..hi]), k - lo)
  {
    TurnsKnown(b);
    TurnsInRun(b, lo, hi);
    RunTurn(b.peers, TurnsOf(b), lo, ConfigFor(b, lo), b.routed[lo].peer, IpsOf(b.routed[lo..hi]), k);
  }

  /** And gives each of its packets what it would get at its turn, or the crash of its task. */
  lemma {:induction false} GroupOutcome(b: Batch, lo: nat, hi: nat, k: nat)
    requires Routable(b) && IsRun(PeerKeys(b.routed), lo, hi) && lo <= k < hi
    ensures var id := b.routed[lo].peer;
      OutcomeOf(b, k) ==
        OutcomeAt(ConfigFor(b, lo), id, PeersAt(b, lo)[id], IpsOf(b.routed[lo..hi]), CrashesIn(b.world, lo), k - lo)
  {
    GroupTurn(b, lo, hi, k);
    RunOf(b, lo, hi, k);
    assert TaskLost(b, k) == TaskLostIn(b, lo, hi, b.routed[lo].peer, k);
  }

  function IndicesOf(routed: seq<Routed>, ready: seq<nat>): (indices: seq<nat>)
    requires forall j | 0 <= j < |ready| :: ready[j] < |routed|
    ensures |indices| == |ready| && forall j | 0 <= j < |ready| :: indices[j] == routed[ready[j]].index
  {
    seq(|ready|, j requires 0 <= j < |ready| => routed[ready[j]].index)
  }

  /** The slot of a packet once it is prepared; empty while the socket has to answer. */
  function SlotOf(p: Preparation): Slot {
    match p
    case Err(e) => Some(Err(e))
    case Ok(None) => Some(Ok(()))
    case Ok(Some(_)) => None
  }

  ghost predicate SlotsDone(routed: seq<Routed>, outcomes: seq<Preparation>, n: nat, start: seq<Slot>, slots: seq<Slot>)
    requires n <= |routed| == |outcomes| && Rising(routed, |start|)
  {
    && |slots| == |start|
    && (forall k | 0 <= k < n :: slots[routed[k].index] == SlotOf(outcomes[k]))
    && (forall k | n <= k < |routed| :: slots[routed[k].index] == None)
    && (forall i | 0 <= i < |start| && start[i].Some? :: slots[i] == start[i])
  }

  lemma {:induction false} SlotStep(routed: seq<Routed>, outcomes: seq<Preparation>, n: nat, start: seq<Slot>, slots: seq<Slot>)
    requires n < |routed| == |outcomes| && Rising(routed, |start|) && SlotsDone(routed, outcomes, n, start, slots)
    requires start[routed[n].index] == None
    ensures SlotsDone(routed, outcomes, n + 1, start, slots[routed[n].index := SlotOf(outcomes[n])])
    ensures IsReady(outcomes[n]) ==> SlotsDone(routed, outcomes, n + 1, start, slots)
  {
  }

  /** What is known when the first `n` routed packets are prepared and sorted: to the socket with
      their slot index, or into their slot. */
  ghost predicate SortedTo(routed: seq<Routed>, outcomes: seq<Preparation>, n: nat, start: seq<Slot>,
                           prepared: seq<Prepared>, indices: seq<nat>, slots: seq<Slot>) {
    && n <= |routed| == |outcomes| && Rising(routed, |start|)
    && prepared == PreparedAt(outcomes, n) && indices == IndicesOf(routed, ReadyAt(outcomes, n))
    && SlotsDone(routed, outcomes, n, start, slots)
  }

  lemma {:induction false} SortReady(routed: seq<Routed>, outcomes: seq<Preparation>, n: nat, start: seq<Slot>,
                                     prepared: seq<Prepared>, indices: seq<nat>, slots: seq<Slot>, p: Prepared)
    requires n < |routed| && SortedTo(routed, outcomes, n, start, prepared, indices, slots)
    requires outcomes[n] == Ok(Some(p)) && start[routed[n].index] == None
    ensures SortedTo(routed, outcomes, n + 1, start, prepared + [p], indices + [routed[n].index], slots)
  {
    SlotStep(routed, outcomes, n, start, slots);
    assert IndicesOf(routed, ReadyAt(outcomes, n + 1)) == indices + [routed[n].index];
  }

  lemma {:induction false} SortDone(routed: seq<Routed>, outcomes: seq<Preparation>, n: nat, start: seq<Slot>,
                                    prepared: seq<Prepared>, indices: seq<nat>, slots: seq<Slot>)
    requires n < |routed| && SortedTo(routed, outcomes, n, start, prepared, indices, slots)
    requires !IsReady(outcomes[n]) && start[routed[n].index] == None
    ensures SortedTo(routed, outcomes, n + 1, start, prepared, indices, slots[routed[n].index := SlotOf(outcomes[n])])
  {
    SlotStep(routed, outcomes, n, start, slots);
    assert ReadyAt(outcomes, n + 1) == ReadyAt(outcomes, n);
  }

  method Distribute(routed: seq<Routed>, ghost outcomes: seq<Preparation>, lo: nat, hi: nat, results: seq<Preparation>,
                    before: seq<Prepared>, indicesBefore: seq<nat>, ghost start: seq<Slot>, slotsBefore: seq<Slot>)
    returns (prepared: seq<Prepared>, indices: seq<nat>, slots: seq<Slot>)
    requires lo <= hi <= |routed| && SortedTo(routed, outcomes, lo, start, before, indicesBefore, slotsBefore)
    requires |results| == hi - lo && forall k | lo <= k < hi :: results[k - lo] == outcomes[k]
    requires forall k | 0 <= k < |routed| :: start[routed[k].index] == None
    ensures SortedTo(routed, outcomes, hi, start, prepared, indices, slots)
  {
    prepared, indices, slots := before, indicesBefore, slotsBefore;
    for k := lo to hi
      invariant SortedTo(routed, outcomes, k, start, prepared, indices, slots)
    {
      var r := results[k - lo];
      if r.Ok? && r.value.Some? {
        SortReady(routed, outcomes, k, start, prepared, indices, slots, r.value.value);
        indices := indices + [routed[k].index];
        prepared := prepared + [r.value.value];
      } else {
        SortDone(routed, outcomes, k, start, prepared, indices, slots);
        slots := slots[routed[k].index := if r.Ok? then Some(Ok(())) else Some(Err(r.error))];
      }
    }
  }

  /** The end of the run of one peer. */
  method PeerGroupEnd(routed: seq<Routed>, start: nat) returns (end: nat)
    requires start < |routed| && (start > 0 ==> routed[start - 1].peer != routed[start].peer)
    ensures IsRun(PeerKeys(routed), start, end)
  {
    end := start + 1;
    while end < |routed| && routed[end].peer == routed[start].peer
      invariant start < end <= |routed|
      invariant forall k | start <= k < end :: routed[k].peer == routed[start].peer
    {
      end := end + 1;
    }
  }

  /** The end of the run of one peer, session and path. */
  method WireGroupEnd(prepared: seq<Prepared>, start: nat) returns (end: nat)
    requires start < |prepared| && (start > 0 ==> KeyOf(prepared[start - 1]) != KeyOf(prepared[start]))
    ensures IsRun(WireKeys(prepared), start, end)
  {
    end := start + 1;
    while end < |prepared| && prepared[end].peer == prepared[start].peer
          && prepared[end].sessionId == prepared[start].sessionId && prepared[end].path == prepared[start].path
      invariant start < end <= |prepared|
      invariant forall k | start <= k < end :: KeyOf(prepared[k]) == KeyOf(prepared[start])
    {
      end := end + 1;
    }
  }

  // ---------------------------------------------------------------- one socket group

  ghost predicate SentTo(prepared: seq<Prepared>, socket: nat -> SocketOutcome, n: nat, results: seq<Result<(), SendError>>,
                         wire: seq<Prepared>, wire': seq<Prepared>, peers: map<NodeId, Peer>, peers': map<NodeId, Peer>) {
    && n <= |prepared|
    && results == Reports(prepared, socket)[..n]
    && wire' == wire + Select(prepared[..n], OutMask(prepared, socket)[..n])
    && peers' == Dropped(prepared, socket, n, peers)
  }

  function TakenBy(outcome: SocketOutcome): nat {
    match outcome
    case Accepted(count) => count
    case SocketError(taken) => taken
  }

  function GroupReports(n: nat, outcome: SocketOutcome): (results: seq<Result<(), SendError>>)
    ensures |results| == n
    ensures forall i | 0 <= i < n :: results[i] == if outcome.Accepted? && i < outcome.count then Ok(()) else Err(Io)
  {
    seq(n, i requires 0 <= i < n => if outcome.Accepted? && i < outcome.count then Ok(()) else Err(Io))
  }

  function Invalidated(peers: map<NodeId, Peer>, id: NodeId, sessionId: U64): map<NodeId, Peer> {
    if id in peers && peers[id].active.Some? && peers[id].active.value.sessionId == sessionId
    then peers[id := Peer(None, [])]
    else peers
  }

  lemma {:induction false} GroupBounds(prepared: seq<Prepared>, lo: nat, hi: nat, k: nat)
    requires IsRun(WireKeys(prepared), lo, hi) && lo <= k < hi
    ensures GroupBegin(prepared, k) == lo && GroupEnd(prepared, k) == hi && KeyOf(prepared[k]) == KeyOf(prepared[lo])
  {
    BeginOfRun(WireKeys(prepared), lo, hi, k);
    EndOfRun(WireKeys(prepared), lo, hi, k);
    assert WireKeys(prepared)[k] == WireKeys(prepared)[lo];
  }

  lemma {:induction false} GroupReported(prepared: seq<Prepared>, socket: nat -> SocketOutcome, lo: nat, hi: nat)
    requires IsRun(WireKeys(prepared), lo, hi)
    ensures Reports(prepared, socket)[..hi] == Reports(prepared, socket)[..lo] + GroupReports(hi - lo, socket(lo))
  {
    forall k | lo <= k < hi ensures Reported(prepared, socket, k) == GroupReports(hi - lo, socket(lo))[k - lo] {
      GroupBounds(prepared, lo, hi, k);
    }
  }

  lemma {:induction false} GroupMask(prepared: seq<Prepared>, socket: nat -> SocketOutcome, lo: nat, hi: nat, j: nat)
    requires IsRun(WireKeys(prepared), lo, hi) && j < hi - lo
    ensures WentOut(prepared, socket, lo + j) <==> j < Least(TakenBy(socket(lo)), hi - lo)
  {
    GroupBounds(prepared, lo, hi, lo + j);
  }

  lemma {:induction false} SelectSplit(s: seq<Prepared>, mask: seq<bool>, lo: nat, hi: nat)
    requires lo <= hi <= |s| == |mask|
    ensures Select(s[..hi], mask[..hi]) == Select(s[..lo], mask[..lo]) + Select(s[lo..hi], mask[lo..hi])
  {
    assert s[..hi] == s[..lo] + s[lo..hi] && mask[..hi] == mask[..lo] + mask[lo..hi];
    SelectConcat(s[..lo], s[lo..hi], mask[..lo], mask[lo..hi]);
  }

  lemma {:induction false} GroupOut(prepared: seq<Prepared>, socket: nat -> SocketOutcome, lo: nat, hi: nat)
    requires IsRun(WireKeys(prepared), lo, hi)
    ensures Select(prepared[..hi], OutMask(prepared, socket)[..hi])
      == Select(prepared[..lo], OutMask(prepared, socket)[..lo]) + prepared[lo..hi][..Least(TakenBy(socket(lo)), hi - lo)]
  {
    var mask := OutMask(prepared, socket);
    var group := mask[lo..hi];
    forall j | 0 <= j < hi - lo ensures group[j] <==> j < Least(TakenBy(socket(lo)), hi - lo) {
      GroupMask(prepared, socket, lo, hi, j);
      assert group[j] == mask[lo + j];
    }
    SelectSplit(prepared, mask, lo, hi);
    SelectFirst(prepared[lo..hi], Least(TakenBy(socket(lo)), hi - lo), mask[lo..hi]);
  }

  lemma {:induction false} FailsMore(prepared: seq<Prepared>, socket: nat -> SocketOutcome, lo: nat, hi: nat, id: NodeId, sessionId: U64)
    requires IsRun(WireKeys(prepared), lo, hi)
    ensures SessionFails(prepared, socket, hi, id, sessionId) <==>
      || SessionFails(prepared, socket, lo, id, sessionId)
      || (prepared[lo].peer == id && prepared[lo].sessionId == sessionId && socket(lo) != Accepted(hi - lo))
  {
    if SessionFails(prepared, socket, hi, id, sessionId) {
      var k :| 0 <= k < hi && prepared[k].peer == id && prepared[k].sessionId == sessionId && !Fully(prepared, socket, k);
      if k >= lo { GroupBounds(prepared, lo, hi, k); }
    }
    GroupBounds(prepared, lo, hi, lo);
    if SessionFails(prepared, socket, lo, id, sessionId) {
      var k :| 0 <= k < lo && prepared[k].peer == id && prepared[k].sessionId == sessionId && !Fully(prepared, socket, k);
      assert 0 <= k < hi;
    }
  }

  lemma {:induction false} GroupDrops(prepared: seq<Prepared>, socket: nat -> SocketOutcome, lo: nat, hi: nat, peers: map<NodeId, Peer>)
    requires IsRun(WireKeys(prepared), lo, hi)
    ensures var before := Dropped(prepared, socket, lo, peers);
      Dropped(prepared, socket, hi, peers) ==
        if socket(lo) == Accepted(hi - lo) then before else Invalidated(before, prepared[lo].peer, prepared[lo].sessionId)
  {
    forall id | id in peers && peers[id].active.Some?
      ensures SessionFails(prepared, socket, hi, id, peers[id].active.value.sessionId) <==>
        || SessionFails(prepared, socket, lo, id, peers[id].active.value.sessionId)
        || (prepared[lo].peer == id && prepared[lo].sessionId == peers[id].active.value.sessionId && socket(lo) != Accepted(hi - lo))
    {
      FailsMore(prepared, socket, lo, hi, id, peers[id].active.value.sessionId);
    }
  }

  lemma {:induction false} SendStep(prepared: seq<Prepared>, socket: nat -> SocketOutcome, lo: nat, hi: nat, results: seq<Result<(), SendError>>,
                                    wire: seq<Prepared>, was: seq<Prepared>, peers: map<NodeId, Peer>, before: map<NodeId, Peer>)
    requires IsRun(WireKeys(prepared), lo, hi) && SentTo(prepared, socket, lo, results, wire, was, peers, before)
    ensures SentTo(prepared, socket, hi, results + GroupReports(hi - lo, socket(lo)), wire,
                   was + prepared[lo..hi][..Least(TakenBy(socket(lo)), hi - lo)], peers,
                   if socket(lo) == Accepted(hi - lo) then before else Invalidated(before, prepared[lo].peer, prepared[lo].sessionId))
  {
    GroupReported(prepared, socket, lo, hi);
    GroupOut(prepared, socket, lo, hi);
    GroupDrops(prepared, socket, lo, hi, peers);
    Associate(wire, Select(prepared[..lo], OutMask(prepared, socket)[..lo]), prepared[lo..hi][..Least(TakenBy(socket(lo)), hi - lo)]);
  }

  lemma {:induction false} Associate(a: seq<Prepared>, b: seq<Prepared>, c: seq<Prepared>)
    ensures (a + b) + c == a + (b + c)
  {
  }

  lemma {:induction false} SentNone(prepared: seq<Prepared>, socket: nat -> SocketOutcome, wire: seq<Prepared>, peers: map<NodeId, Peer>)
    ensures SentTo(prepared, socket, 0, [], wire, wire, peers, peers)
  {
    assert Dropped(prepared, socket, 0, peers) == peers;
  }

  lemma {:induction false} SentAll(prepared: seq<Prepared>, socket: nat -> SocketOutcome, results: seq<Result<(), SendError>>,
                                   wire: seq<Prepared>, wire': seq<Prepared>, peers: map<NodeId, Peer>, peers': map<NodeId, Peer>)
    requires SentTo(prepared, socket, |prepared|, results, wire, wire', peers, peers')
    ensures results == Reports(prepared, socket) && wire' == wire + Outgoing(prepared, socket)
    ensures peers' == Dropped(prepared, socket, |prepared|, peers)
  {
    assert prepared[..|prepared|] == prepared && OutMask(prepared, socket)[..|prepared|] == OutMask(prepared, socket);
  }

  // ---------------------------------------------------------------- sequences on the wire

  ghost predicate SameSession(a: Prepared, b: Prepared) {
    a.peer == b.peer && a.sessionId == b.sessionId
  }

  /** On each session the sequences on the wire strictly increase. */
  ghost predicate Ordered(log: seq<Prepared>) {
    forall j, k | 0 <= j < k < |log| && SameSession(log[j], log[k]) :: log[j].sequence < log[k].sequence
  }

  ghost predicate Below(log: seq<Prepared>, id: NodeId, sessionId: U64, bound: nat) {
    forall k | 0 <= k < |log| && log[k].peer == id && log[k].sessionId == sessionId :: log[k].sequence < bound
  }

  /** No sequence still to be given out was used before. */
  ghost predicate Fresh(log: seq<Prepared>, peers: map<NodeId, Peer>) {
    forall id | id in peers && peers[id].active.Some? ::
      Below(log, id, peers[id].active.value.sessionId, peers[id].active.value.txSequence)
  }

  lemma {:induction false} AppendOrdered(log: seq<Prepared>, p: Prepared, bound: nat)
    requires Ordered(log) && Below(log, p.peer, p.sessionId, bound) && bound <= p.sequence
    ensures Ordered(log + [p]) && Below(log + [p], p.peer, p.sessionId, p.sequence + 1)
  {
  }

  lemma {:induction false} AppendFresh(log: seq<Prepared>, peers: map<NodeId, Peer>, p: Prepared, after: Peer)
    requires Fresh(log, peers) && after.active.Some? && after.active.value.sessionId == p.sessionId
    requires Below(log + [p], p.peer, p.sessionId, after.active.value.txSequence)
    ensures Fresh(log + [p], peers[p.peer := after])
  {
  }

  lemma {:induction false} LaterFresh(log: seq<Prepared>, peers: map<NodeId, Peer>, id: NodeId, c: Config, ip: IpPacket)
    requires Fresh(log, peers) && id in peers
    ensures Fresh(log, peers[id := AfterOne(c, peers[id], ip)])
  {
  }

  /** One turn, whatever becomes of it, keeps the wire ordered and the counters fresh. */
  lemma {:induction false} TurnOrdered(log: seq<Prepared>, peers: map<NodeId, Peer>, c: Config, id: NodeId, ip: IpPacket, outcome: Preparation)
    requires Ordered(log) && Fresh(log, peers) && id in peers
    requires outcome == PrepareOne(c, id, peers[id], ip) || outcome == Err(Io)
    ensures var log' := if IsReady(outcome) then log + [outcome.value.value] else log;
      Ordered(log') && Fresh(log', peers[id := AfterOne(c, peers[id], ip)])
  {
    if IsReady(outcome) {
      var p := outcome.value.value;
      AppendOrdered(log, p, p.sequence);
      AppendFresh(log, peers, p, AfterOne(c, peers[id], ip));
    } else {
      LaterFresh(log, peers, id, c, ip);
    }
  }

  /** Every outcome is that of its turn, or an I/O error. */
  ghost predicate InTurn(peers: map<NodeId, Peer>, turns: seq<Turn>, outcomes: seq<Preparation>) {
    && Known(turns, peers) && |outcomes| == |turns|
    && forall k {:trigger outcomes[k]} | 0 <= k < |turns| ::
         outcomes[k] == Err(Io) || outcomes[k] == AtTurn(peers, turns, k)
  }

  /** The wire if everything prepared so far went out. */
  ghost function LogAt(wire: seq<Prepared>, outcomes: seq<Preparation>, n: nat): seq<Prepared>
    requires n <= |outcomes|
  {
    if n == 0 then wire
    else if IsReady(outcomes[n - 1]) then LogAt(wire, outcomes, n - 1) + [outcomes[n - 1].value.value]
    else LogAt(wire, outcomes, n - 1)
  }

  lemma {:induction false} LogIs(wire: seq<Prepared>, outcomes: seq<Preparation>, n: nat)
    requires n <= |outcomes|
    ensures LogAt(wire, outcomes, n) == wire + PreparedAt(outcomes, n)
  {
    if n > 0 {
      LogIs(wire, outcomes, n - 1);
      if IsReady(outcomes[n - 1]) {
        Associate(wire, PreparedAt(outcomes, n - 1), [outcomes[n - 1].value.value]);
      }
    }
  }

  lemma {:induction false} FoldOrdered(wire: seq<Prepared>, peers: map<NodeId, Peer>, turns: seq<Turn>, outcomes: seq<Preparation>, n: nat)
    requires InTurn(peers, turns, outcomes) && n <= |turns| && Ordered(wire) && Fresh(wire, peers)
    ensures Ordered(LogAt(wire, outcomes, n)) && Fresh(LogAt(wire, outcomes, n), Fold(peers, turns, n))
  {
    if n > 0 {
      FoldOrdered(wire, peers, turns, outcomes, n - 1);
      var t := turns[n - 1];
      TurnOrdered(LogAt(wire, outcomes, n - 1), Fold(peers, turns, n - 1), t.config, t.peer, t.ip, outcomes[n - 1]);
    }
  }

  lemma {:induction false} BatchInTurn(b: Batch)
    requires Routable(b)
    ensures InTurn(b.peers, TurnsOf(b), OutcomesOf(b))
  {
    TurnsKnown(b);
    forall k | 0 <= k < |b.routed|
      ensures OutcomesOf(b)[k] == Err(Io) || OutcomesOf(b)[k] == AtTurn(b.peers, TurnsOf(b), k)
    {
      OutcomeIs(b, k);
    }
  }

  lemma {:induction false} BelowSubsequence(s: seq<Prepared>, t: seq<Prepared>, id: NodeId, sessionId: U64, bound: nat)
    requires Subsequence(s, t) && Below(t, id, sessionId, bound)
    ensures Below(s, id, sessionId, bound)
    decreases |s| + |t|
  {
    if s != [] {
      if Subsequence(s, t[..|t| - 1]) {
        BelowSubsequence(s, t[..|t| - 1], id, sessionId, bound);
      } else {
        BelowSubsequence(s[..|s| - 1], t[..|t| - 1], id, sessionId, bound);
      }
    }
  }

  lemma {:induction false} OrderedSubsequence(s: seq<Prepared>, t: seq<Prepared>)
    requires Subsequence(s, t) && Ordered(t)
    ensures Ordered(s)
    decreases |s| + |t|
  {
    if s != [] {
      var t' := t[..|t| - 1];
      if Subsequence(s, t') {
        OrderedSubsequence(s, t');
      } else {
        var s', last := s[..|s| - 1], s[|s| - 1];
        assert s == s' + [last];
        OrderedSubsequence(s', t');
        BelowSubsequence(s', t', last.peer, last.sessionId, last.sequence);
        AppendOrdered(s', last, last.sequence);
      }
    }
  }

  /** What the socket left out and the sessions it cost do no harm. */
  lemma {:induction false} OutgoingOrdered(wire: seq<Prepared>, prepared: seq<Prepared>, socket: nat -> SocketOutcome, peers: map<NodeId, Peer>)
    requires Ordered(wire + prepared) && Fresh(wire + prepared, peers)
    ensures var wire' := wire + Outgoing(prepared, socket);
      Ordered(wire') && Fresh(wire', Dropped(prepared, socket, |prepared|, peers))
  {
    var out := Outgoing(prepared, socket);
    SelectIsSubsequence(prepared, OutMask(prepared, socket));
    SubsequenceSelf(wire);
    SubsequenceConcat(wire, wire, out, prepared);
    OrderedSubsequence(wire + out, wire + prepared);
    var after := Dropped(prepared, socket, |prepared|, peers);
    forall id | id in after && after[id].active.Some?
      ensures Below(wire + out, id, after[id].active.value.sessionId, after[id].active.value.txSequence)
    {
      BelowSubsequence(wire + out, wire + prepared, id, after[id].active.value.sessionId, after[id].active.value.txSequence);
    }
  }

  /** A whole batch keeps sequences rising on every session, and counters past everything sent. */
  lemma {:induction false} BatchKeepsOrder(b: Batch, wire: seq<Prepared>)
    requires Routable(b) && Ordered(wire) && Fresh(wire, b.peers)
    ensures var wire' := wire + Outgoing(PreparedFrom(OutcomesOf(b)), b.world.socket);
      Ordered(wire') && Fresh(wire', PeersAfter(b))
  {
    BatchInTurn(b);
    FoldOrdered(wire, b.peers, TurnsOf(b), OutcomesOf(b), |b.routed|);
    LogIs(wire, OutcomesOf(b), |b.routed|);
    OutgoingOrdered(wire, PreparedFrom(OutcomesOf(b)), b.world.socket, PeersAt(b, |b.routed|));
  }

  // ---------------------------------------------------------------- the code

  class Sender {
    const settings: Settings
    var peers: map<NodeId, Peer>
    var local: set<IpAddr>
    var routes: map<IpAddr, NodeId>
    /** Everything the socket has taken, in order. */
    var wire: seq<Prepared>

    constructor (settings: Settings, local: set<IpAddr>, routes: map<IpAddr, NodeId>, peers: map<NodeId, Peer>)
      ensures this.settings == settings && this.local == local && this.routes == routes && this.peers == peers && wire == []
    {
      this.settings := settings;
      this.local := local;
      this.routes := routes;
      this.peers := peers;
      wire := [];
    }

    ghost predicate Valid()
      reads this
    {
      Ordered(wire) && Fresh(wire, peers)
    }

    /** A socket error or a short send drops the session it was sent on, and its queue. */
    method InvalidateSessionIf(id: NodeId, sessionId: U64)
      modifies this`peers
      ensures peers == Invalidated(old(peers), id, sessionId)
    {
      if id in peers && peers[id].active.Some? && peers[id].active.value.sessionId == sessionId {
        peers := peers[id := Peer(None, [])];
      }
    }

    /** One batched send. An error may come after some packets went out; it is reported for all. */
    method SendGroup(group: seq<Prepared>, outcome: SocketOutcome) returns (results: seq<Result<(), SendError>>)
      requires group != []
      modifies this`peers, this`wire
      ensures results == GroupReports(|group|, outcome)
      ensures wire == old(wire) + group[..Least(TakenBy(outcome), |group|)]
      ensures peers == if outcome == Accepted(|group|) then old(peers)
                       else Invalidated(old(peers), group[0].peer, group[0].sessionId)
    {
      wire := wire + group[..Least(TakenBy(outcome), |group|)];
      match outcome
      case Accepted(count) =>
        var sent := Least(count, |group|);
        if count != |group| {
          InvalidateSessionIf(group[0].peer, group[0].sessionId);
        }
        results := seq(|group|, i => if i < sent then Ok(()) else Err(Io));
      case SocketError(_) =>
        InvalidateSessionIf(group[0].peer, group[0].sessionId);
        results := seq(|group|, _ => Err(Io));
    }

    /** Group by group: each packet is reported as the socket ended its own group, what the socket
        took is on the wire in order, and exactly the sessions of groups not fully taken are gone. */
    method SendPreparedBatch(prepared: seq<Prepared>, socket: nat -> SocketOutcome) returns (results: seq<Result<(), SendError>>)
      modifies this`peers, this`wire
      ensures results == Reports(prepared, socket)
      ensures wire == old(wire) + Outgoing(prepared, socket)
      ensures peers == Dropped(prepared, socket, |prepared|, old(peers))
    {
      results := [];
      var start := 0;
      SentNone(prepared, socket, wire, peers);
      while start < |prepared|
        invariant start <= |prepared| && (0 < start < |prepared| ==> KeyOf(prepared[start - 1]) != KeyOf(prepared[start]))
        invariant SentTo(prepared, socket, start, results, old(wire), wire, old(peers), peers)
      {
        var end := WireGroupEnd(prepared, start);
        SendStep(prepared, socket, start, end, results, old(wire), wire, old(peers), peers);
        var reports := SendGroup(prepared[start..end], socket(start));
        results := results + reports;
        RunEnds(WireKeys(prepared), start, end);
        start := end;
      }
      SentAll(prepared, socket, results, old(wire), wire, old(peers), peers);
    }

    /** Parse and route every packet under one view of routes and peers. */
    method RoutePackets(packets: seq<seq<Byte>>) returns (routed: seq<Routed>, slots: seq<Slot>)
      ensures var found := RouteAll(local, routes, peers.Keys, packets);
        routed == RoutedOf(found) && slots == ErrorSlots(found)
    {
      ghost var found := RouteAll(local, routes, peers.Keys, packets);
      slots, routed := [], [];
      for i := 0 to |packets|
        invariant routed == RoutedOf(found[..i]) && slots == ErrorSlots(found[..i])
      {
        var r := RouteIn(local, routes, peers.Keys, packets[i]);
        RouteStep(found, i, r);
        if r.Err? {
          slots := slots + [Some(Err(r.error))];
        } else {
          slots, routed := slots + [None], routed + [Routed(i, r.value.0, r.value.1)];
        }
      }
      assert found[..|packets|] == found;
    }

    /** Prepares the routed packets peer run by peer run, each as at its own turn. */
    method PrepareGroups(world: World, routed: seq<Routed>, start: seq<Slot>)
      returns (prepared: seq<Prepared>, indices: seq<nat>, slots: seq<Slot>)
      requires Rising(routed, |start|) && Routable(Batch(settings, world, peers, routed))
      requires forall k | 0 <= k < |routed| :: start[routed[k].index] == None
      modifies this`peers
      ensures var b := Batch(settings, world, old(peers), routed);
        && peers == PeersAt(b, |routed|)
        && SortedTo(routed, OutcomesOf(b), |routed|, start, prepared, indices, slots)
    {
      var b := Batch(settings, world, peers, routed);
      TurnsKnown(b);
      prepared, indices, slots := [], [], start;
      var begin := 0;
      while begin < |routed|
        invariant begin <= |routed| && (0 < begin < |routed| ==> routed[begin - 1].peer != routed[begin].peer)
        invariant peers == PeersAt(b, begin)
        invariant SortedTo(routed, OutcomesOf(b), begin, start, prepared, indices, slots)
      {
        var end := PeerGroupEnd(routed, begin);
        var results := PrepareGroup(b, begin, end);
        prepared, indices, slots := Distribute(routed, OutcomesOf(b), begin, end, results, prepared, indices, start, slots);
        RunEnds(PeerKeys(routed), begin, end);
        begin := end;
      }
    }

    /** The batch a call stands for. */
    ghost function BatchOf(packets: seq<seq<Byte>>, world: World): Batch
      reads this
    {
      Batch(settings, world, peers, RoutedOf(RouteAll(local, routes, peers.Keys, packets)))
    }

    /** One result per input packet: its routing error, or what its preparation at its own turn, its
        own encryption task and the socket's answer to its own group make of it. The wire grows by
        what the socket took, peers end as one packet after the other leaves them less the failed
        sessions, and on every session sequences keep rising. */
    method SendIpBatch(packets: seq<seq<Byte>>, world: World) returns (results: seq<Result<(), SendError>>)
      requires Valid()
      modifies this`peers, this`wire
      ensures Valid()
      ensures |results| == |packets|
      ensures forall i | 0 <= i < |packets| && RouteIn(local, routes, old(peers).Keys, packets[i]).Err? ::
        results[i] == Err(RouteIn(local, routes, old(peers).Keys, packets[i]).error)
      ensures var b := old(BatchOf(packets, world));
        && Routable(b)
        && (forall k | 0 <= k < |b.routed| :: results[b.routed[k].index] == ResultFor(OutcomesOf(b), world.socket, k))
        && wire == old(wire) + Outgoing(PreparedFrom(OutcomesOf(b)), world.socket)
        && peers == PeersAfter(b)
    {
      ghost var found := RouteAll(local, routes, peers.Keys, packets);
      var routed, start := RoutePackets(packets);
      StartSlots(found, peers);
      results := SendRouted(world, routed, start, found);
    }

    /** The rest of a batch once its packets are routed. */
    method SendRouted(world: World, routed: seq<Routed>, start: seq<Slot>, ghost found: seq<RouteResult>)
      returns (results: seq<Result<(), SendError>>)
      requires Valid() && routed == RoutedOf(found) && start == ErrorSlots(found)
      requires Routable(Batch(settings, world, peers, routed)) && forall k | 0 <= k < |routed| :: start[routed[k].index] == None
      modifies this`peers, this`wire
      ensures Valid()
      ensures |results| == |found|
      ensures forall i | 0 <= i < |found| && found[i].Err? :: results[i] == Err(found[i].error)
      ensures var b := Batch(settings, world, old(peers), routed);
        && (forall k | 0 <= k < |routed| :: results[routed[k].index] == ResultFor(OutcomesOf(b), world.socket, k))
        && wire == old(wire) + Outgoing(PreparedFrom(OutcomesOf(b)), world.socket)
        && peers == PeersAfter(b)
    {
      ghost var b := Batch(settings, world, peers, routed);
      BatchKeepsOrder(b, wire);
      var prepared, indices, slots := PrepareGroups(world, routed, start);
      var reports := SendPreparedBatch(prepared, world.socket);
      results := CollectResults(routed, OutcomesOf(b), world.socket, indices, reports, start, slots, found);
    }

    /** The run of one peer: every packet gets what it would get at its turn, or the crash of its task. */
    method PrepareGroup(b: Batch, lo: nat, hi: nat) returns (results: seq<Preparation>)
      requires Routable(b) && IsRun(PeerKeys(b.routed), lo, hi) && peers == PeersAt(b, lo)
      modifies this`peers
      ensures peers == PeersAt(b, hi)
      ensures |results| == hi - lo && forall k | lo <= k < hi :: results[k - lo] == OutcomesOf(b)[k]
    {
      TurnsKnown(b);
      TurnsInRun(b, lo, hi);
      IpAt(b.routed, lo, hi, lo);
      results := PrepareRun(b.peers, TurnsOf(b), lo, hi, ConfigFor(b, lo), b.routed[lo].peer, IpsOf(b.routed[lo..hi]), CrashesIn(b.world, lo));
      GroupResults(b, lo, hi, results);
    }

    /** One run of turns, prepared in one go. */
    method PrepareRun(ghost before: map<NodeId, Peer>, ghost turns: seq<Turn>, ghost lo: nat, ghost hi: nat, c: Config, id: NodeId,
                      ips: seq<IpPacket>, crashes: nat -> bool)
      returns (results: seq<Preparation>)
      requires lo <= hi <= |turns| && |ips| == hi - lo && Known(turns, before) && id in before && RunTurns(turns, lo, c, id, ips) && peers == Fold(before, turns, lo)
      modifies this`peers
      ensures peers == Fold(before, turns, hi)
      ensures Outcomes(c, id, Fold(before, turns, lo)[id], ips, crashes, results)
    {
      var after;
      after, results := PrepareIpPackets(c, id, peers[id], ips, crashes);
      FoldRun(before, turns, lo, c, id, ips, |ips|);
      peers := peers[id := after];
    }
  }

  lemma {:induction false} RunEnds<K>(keys: seq<K>, lo: nat, hi: nat)
    requires IsRun(keys, lo, hi)
    ensures hi < |keys| ==> keys[hi - 1] != keys[hi]
  {
  }

  function ErrorSlot(r: RouteResult): Slot {
    if r.Err? then Some(Err(r.error)) else None
  }

  function ErrorSlots(found: seq<RouteResult>): (slots: seq<Slot>)
    ensures |slots| == |found| && forall i | 0 <= i < |slots| :: slots[i] == ErrorSlot(found[i])
  {
    seq(|found|, i requires 0 <= i < |found| => ErrorSlot(found[i]))
  }

  lemma {:induction false} RouteStep(found: seq<RouteResult>, i: nat, r: RouteResult)
    requires i < |found| && r == found[i]
    ensures ErrorSlots(found[..i + 1]) == ErrorSlots(found[..i]) + [ErrorSlot(r)]
    ensures RoutedOf(found[..i + 1]) == RoutedOf(found[..i]) + (if r.Err? then [] else [Routed(i, r.value.0, r.value.1)])
  {
    assert found[..i + 1][..i] == found[..i];
  }

  lemma {:induction false} GroupResults(b: Batch, lo: nat, hi: nat, results: seq<Preparation>)
    requires Routable(b) && IsRun(PeerKeys(b.routed), lo, hi)
    requires var id := b.routed[lo].peer;
      Outcomes(ConfigFor(b, lo), id, PeersAt(b, lo)[id], IpsOf(b.routed[lo..hi]), CrashesIn(b.world, lo), results)
    ensures |results| == hi - lo && forall k | lo <= k < hi :: results[k - lo] == OutcomesOf(b)[k]
  {
    forall k | lo <= k < hi ensures results[k - lo] == OutcomesOf(b)[k] {
      OutcomeIs(b, k);
      GroupOutcome(b, lo, hi, k);
    }
  }

  lemma {:induction false} StartSlots(found: seq<RouteResult>, peers: map<NodeId, Peer>)
    requires forall i | 0 <= i < |found| && found[i].Ok? :: found[i].value.1 in peers
    ensures var routed := RoutedOf(found);
      forall k | 0 <= k < |routed| :: routed[k].peer in peers && ErrorSlots(found)[routed[k].index] == None
  {
    var routed := RoutedOf(found);
    forall k | 0 <= k < |routed| ensures routed[k].peer in peers && ErrorSlots(found)[routed[k].index] == None {
      assert found[routed[k].index] == Ok((routed[k].ip, routed[k].peer));
    }
  }

  /** The socket's answers go into the slots their packets came from. */
  method FillSlots(indices: seq<nat>, reports: seq<Result<(), SendError>>, start: seq<Slot>) returns (slots: seq<Slot>)
    requires |indices| == |reports|
    requires forall j | 0 <= j < |indices| :: indices[j] < |start| && start[indices[j]] == None
    requires forall i, j | 0 <= i < j < |indices| :: indices[i] < indices[j]
    ensures |slots| == |start|
    ensures forall j | 0 <= j < |indices| :: slots[indices[j]] == Some(reports[j])
    ensures forall i | 0 <= i < |start| && start[i].Some? :: slots[i] == start[i]
  {
    slots := start;
    for n := 0 to |indices|
      invariant |slots| == |start|
      invariant forall j | 0 <= j < n :: slots[indices[j]] == Some(reports[j])
      invariant forall i | 0 <= i < |start| && start[i].Some? :: slots[i] == start[i]
    {
      slots := slots[indices[n] := Some(reports[n])];
    }
  }

  lemma {:induction false} OpenIndices(routed: seq<Routed>, outcomes: seq<Preparation>, start: seq<Slot>, indices: seq<nat>, slots: seq<Slot>)
    requires |routed| == |outcomes| && Rising(routed, |start|) && SlotsDone(routed, outcomes, |routed|, start, slots)
    requires indices == IndicesOf(routed, ReadyAt(outcomes, |outcomes|))
    ensures forall j | 0 <= j < |indices| :: indices[j] < |slots| && slots[indices[j]] == None
    ensures forall i, j | 0 <= i < j < |indices| :: indices[i] < indices[j]
  {
    var ready := ReadyAt(outcomes, |outcomes|);
    forall j | 0 <= j < |indices| ensures indices[j] < |slots| && slots[indices[j]] == None {
      assert IsReady(outcomes[ready[j]]);
    }
  }

  lemma {:induction false} ResultIs(routed: seq<Routed>, outcomes: seq<Preparation>, socket: nat -> SocketOutcome, start: seq<Slot>,
                                    indices: seq<nat>, slots: seq<Slot>, filled: seq<Slot>, k: nat)
    requires k < |routed| == |outcomes| && Rising(routed, |start|) && SlotsDone(routed, outcomes, |routed|, start, slots)
    requires indices == IndicesOf(routed, ReadyAt(outcomes, |outcomes|)) && |filled| == |slots|
    requires var reports := Reports(PreparedFrom(outcomes), socket);
      |reports| == |indices| && forall j | 0 <= j < |indices| :: indices[j] < |filled| && filled[indices[j]] == Some(reports[j])
    requires forall i | 0 <= i < |slots| && slots[i].Some? :: filled[i] == slots[i]
    ensures filled[routed[k].index] == Some(ResultFor(outcomes, socket, k))
  {
    if IsReady(outcomes[k]) {
      Place(outcomes, k, |outcomes|);
      var j := |ReadyAt(outcomes, k)|;
      assert indices[j] == routed[k].index;
    }
  }

  method CollectResults(ghost routed: seq<Routed>, ghost outcomes: seq<Preparation>, ghost socket: nat -> SocketOutcome, indices: seq<nat>,
                        reports: seq<Result<(), SendError>>, ghost start: seq<Slot>, slots: seq<Slot>, ghost found: seq<RouteResult>)
    returns (results: seq<Result<(), SendError>>)
    requires |routed| == |outcomes| && routed == RoutedOf(found) && start == ErrorSlots(found)
    requires SlotsDone(routed, outcomes, |routed|, start, slots) && indices == IndicesOf(routed, ReadyAt(outcomes, |outcomes|))
    requires reports == Reports(PreparedFrom(outcomes), socket)
    ensures |results| == |found|
    ensures forall i | 0 <= i < |found| && found[i].Err? :: results[i] == Err(found[i].error)
    ensures forall k | 0 <= k < |routed| :: results[routed[k].index] == ResultFor(outcomes, socket, k)
  {
    OpenIndices(routed, outcomes, start, indices, slots);
    var filled := FillSlots(indices, reports, slots);
    forall k | 0 <= k < |routed| ensures filled[routed[k].index] == Some(ResultFor(outcomes, socket, k)) {
      ResultIs(routed, outcomes, socket, start, indices, slots, filled, k);
    }
    forall i | 0 <= i < |found| ensures filled[i].Some? && (found[i].Err? ==> filled[i] == Some(Err(found[i].error))) {
      if found[i].Err? {
        assert start[i] == ErrorSlot(found[i]);
      } else {
        var k := RoutedHas(found, i);
        assert filled[routed[k].index].Some?;
      }
    }
    results := seq(|filled|, i requires 0 <= i < |filled| => filled[i].value);
  }

  // ---------------------------------------------------------------- what a batch promises: the wire

  predicate Carries(r: Routed, p: Prepared) {
    p.plaintext == r.ip.bytes && p.peer == r.peer
  }

  lemma {:induction false} TurnCarries(peers: map<NodeId, Peer>, turns: seq<Turn>, k: nat)
    requires Known(turns, peers) && k < |turns| && IsReady(AtTurn(peers, turns, k))
    ensures var p := AtTurn(peers, turns, k).value.value; p.plaintext == turns[k].ip.bytes && p.peer == turns[k].peer
  {
  }

  lemma {:induction false} OutcomeCarries(b: Batch, k: nat)
    requires Routable(b) && k < |b.routed| && IsReady(OutcomesOf(b)[k])
    ensures Carries(b.routed[k], OutcomesOf(b)[k].value.value)
  {
    OutcomeIs(b, k);
    TurnsKnown(b);
    TurnCarries(b.peers, TurnsOf(b), k);
    TurnIs(b, |b.routed|, k);
  }

  /** The routed packets that went out, in input order. */
  function OutPositions(outcomes: seq<Preparation>, socket: nat -> SocketOutcome): seq<nat> {
    Select(ReadyAt(outcomes, |outcomes|), OutMask(PreparedFrom(outcomes), socket))
  }

  /** What goes out does so in input order, each packet with its own bytes to the peer it is routed to. */
  lemma {:induction false} OutgoingInOrder(b: Batch)
    requires Routable(b)
    ensures var o := OutcomesOf(b);
      var out, from := Outgoing(PreparedFrom(o), b.world.socket), OutPositions(o, b.world.socket);
      && |out| == |from|
      && (forall j | 0 <= j < |out| :: from[j] < |b.routed| && Carries(b.routed[from[j]], out[j]))
      && (forall i, j | 0 <= i < j < |from| :: from[i] < from[j])
  {
    var o := OutcomesOf(b);
    var ready, prepared, mask := ReadyAt(o, |o|), PreparedFrom(o), OutMask(PreparedFrom(o), b.world.socket);
    var pair := (k: nat, p: Prepared) => k < |b.routed| && Carries(b.routed[k], p);
    forall j | 0 <= j < |ready| ensures pair(ready[j], prepared[j]) {
      PreparedIs(o, |o|, j);
      OutcomeCarries(b, ready[j]);
    }
    SelectPaired(ready, prepared, mask, pair);
    SelectIsSubsequence(ready, mask);
    RisingPart(Select(ready, mask), ready);
  }

  predicate Climbs(s: seq<nat>) {
    forall i, j | 0 <= i < j < |s| :: s[i] < s[j]
  }

  lemma {:induction false} RisingPart(s: seq<nat>, t: seq<nat>)
    requires Subsequence(s, t) && Climbs(t)
    ensures Climbs(s) && (s != [] ==> t != [] && s[|s| - 1] <= t[|t| - 1])
    decreases |s| + |t|
  {
    if s != [] {
      var t' := t[..|t| - 1];
      if Subsequence(s, t') {
        RisingPart(s, t');
      } else {
        RisingPart(s[..|s| - 1], t');
      }
    }
  }

  /** A packet whose group the socket took in full is reported sent and went out. */
  lemma {:induction false} AcceptedGroupsAreSent(outcomes: seq<Preparation>, socket: nat -> SocketOutcome, k: nat)
    requires k < |outcomes| && IsReady(outcomes[k])
    ensures |ReadyAt(outcomes, k)| < |PreparedFrom(outcomes)|
    ensures Fully(PreparedFrom(outcomes), socket, |ReadyAt(outcomes, k)|) ==>
      ResultFor(outcomes, socket, k) == Ok(()) && WentOut(PreparedFrom(outcomes), socket, |ReadyAt(outcomes, k)|)
  {
    Place(outcomes, k, |outcomes|);
  }

  /** A packet reported sent was queued, or its datagram went out. */
  lemma {:induction false} ReportedIsOutOrQueued(outcomes: seq<Preparation>, socket: nat -> SocketOutcome, k: nat)
    requires k < |outcomes| && ResultFor(outcomes, socket, k).Ok?
    ensures outcomes[k] == Ok(None) ||
      exists j :: 0 <= j < |PreparedFrom(outcomes)| && outcomes[k] == Ok(Some(PreparedFrom(outcomes)[j])) && WentOut(PreparedFrom(outcomes), socket, j)
  {
    if IsReady(outcomes[k]) {
      Place(outcomes, k, |outcomes|);
      PreparedIs(outcomes, |outcomes|, |ReadyAt(outcomes, k)|);
    }
  }

  lemma {:induction false} SelectMore<T>(s: seq<T>, a: seq<bool>, b: seq<bool>)
    requires |a| == |b| && |s| <= |a| && forall i | 0 <= i < |a| :: a[i] ==> b[i]
    ensures |Select(s, a)| <= |Select(s, b)|
    ensures (exists i :: 0 <= i < |s| && b[i] && !a[i]) ==> |Select(s, a)| < |Select(s, b)|
  {
    if s != [] {
      SelectMore(s[..|s| - 1], a, b);
    }
  }

  /** No group was cut off by an error after the socket had taken some of it. */
  predicate CleanErrors(prepared: seq<Prepared>, socket: nat -> SocketOutcome) {
    forall k | 0 <= k < |prepared| :: socket(GroupBegin(prepared, k)).SocketError? ==> socket(GroupBegin(prepared, k)).taken == 0
  }

  lemma {:induction false} BeginIsBegin<K>(keys: seq<K>, k: nat)
    requires k < |keys|
    ensures RunBegin(keys, RunBegin(keys, k)) == RunBegin(keys, k)
  {
    if k > 0 && keys[k - 1] == keys[k] {
      BeginIsBegin(keys, k - 1);
    }
  }

  /** The wire grows by exactly the packets reported sent if and only if no erring group had taken a
      packet first. */
  lemma {:induction false} WireIsReportedExactly(prepared: seq<Prepared>, socket: nat -> SocketOutcome)
    ensures Outgoing(prepared, socket) == Select(prepared, OkMask(Reports(prepared, socket))) <==> CleanErrors(prepared, socket)
  {
    var out, oks := OutMask(prepared, socket), OkMask(Reports(prepared, socket));
    forall i | 0 <= i < |oks| ensures oks[i] ==> out[i] {
      assert Reports(prepared, socket)[i] == Reported(prepared, socket, i);
    }
    if CleanErrors(prepared, socket) {
      forall i | 0 <= i < |oks| ensures out[i] ==> oks[i] {
        assert Reports(prepared, socket)[i] == Reported(prepared, socket, i);
      }
      assert out == oks;
    } else {
      var k :| 0 <= k < |prepared| && socket(GroupBegin(prepared, k)).SocketError? && socket(GroupBegin(prepared, k)).taken > 0;
      var lo := GroupBegin(prepared, k);
      BeginIsBegin(WireKeys(prepared), k);
      assert Reports(prepared, socket)[lo] == Reported(prepared, socket, lo);
      assert out[lo] && !oks[lo];
      SelectMore(prepared, oks, out);
    }
  }

  /** A packet can go out and be reported failed: the socket errs after the first of two. */
  lemma {:induction false} SentAndReportedFailed(p: Prepared, q: Prepared)
    requires KeyOf(p) == KeyOf(q)
    ensures var socket := (_: nat) => SocketError(1);
      WentOut([p, q], socket, 0) && !WentOut([p, q], socket, 1) && Reports([p, q], socket) == [Err(Io), Err(Io)]
  {
    var prepared, socket := [p, q], (_: nat) => SocketError(1);
    assert WireKeys(prepared)[0] == KeyOf(p) && WireKeys(prepared)[1] == KeyOf(q);
    assert GroupBegin(prepared, 0) == 0;
    assert GroupBegin(prepared, 1) == RunBegin(WireKeys(prepared), 0);
    assert Reports(prepared, socket)[0] == Reported(prepared, socket, 0);
    assert Reports(prepared, socket)[1] == Reported(prepared, socket, 1);
  }

  // ---------------------------------------------------------------- what a batch promises: the peers

  /** No turn of the peer among the first `n` finds an expired snapshot. */
  predicate Unexpired(turns: seq<Turn>, id: NodeId, n: nat)
    requires n <= |turns|
  {
    forall k | 0 <= k < n && turns[k].peer == id :: !turns[k].config.expired
  }

  /** How many of the first `n` turns are of the peer and fit a limit. */
  function FitsFor(turns: seq<Turn>, id: NodeId, limit: Option<nat>, n: nat): nat
    requires n <= |turns|
  {
    if n == 0 then 0
    else FitsFor(turns, id, limit, n - 1)
         + (if turns[n - 1].peer == id && Fits(turns[n - 1].config, limit, turns[n - 1].ip) then 1 else 0)
  }

  /** With a session, the counter advances by the number of fitting packets and nothing else changes. */
  lemma {:induction false} FoldCounter(peers: map<NodeId, Peer>, turns: seq<Turn>, id: NodeId, n: nat)
    requires Known(turns, peers) && n <= |turns| && id in peers && peers[id].active.Some? && Unexpired(turns, id, n)
    ensures Fold(peers, turns, n)[id] == Advance(peers[id], FitsFor(turns, id, LimitOf(peers[id]), n))
  {
    if n > 0 {
      FoldCounter(peers, turns, id, n - 1);
    }
  }

  lemma {:induction false} FoldNoSession(peers: map<NodeId, Peer>, turns: seq<Turn>, id: NodeId, k: nat, n: nat)
    requires Known(turns, peers) && k <= n <= |turns| && id in peers && Fold(peers, turns, k)[id].active.None?
    ensures Fold(peers, turns, n)[id].active.None?
  {
    if k < n {
      FoldNoSession(peers, turns, id, k, n - 1);
    }
  }

  /** The payloads the first `n` turns put in the queue of the peer. */
  function QueuedFor(peers: map<NodeId, Peer>, turns: seq<Turn>, id: NodeId, n: nat): seq<seq<Byte>>
    requires Known(turns, peers) && n <= |turns|
  {
    if n == 0 then []
    else QueuedFor(peers, turns, id, n - 1)
         + (if turns[n - 1].peer == id && AtTurn(peers, turns, n - 1) == Ok(None) then [turns[n - 1].ip.bytes] else [])
  }

  lemma {:induction false} FoldQueue(peers: map<NodeId, Peer>, turns: seq<Turn>, id: NodeId, n: nat)
    requires Known(turns, peers) && n <= |turns| && id in peers && peers[id].active.None? && Unexpired(turns, id, n)
    ensures Fold(peers, turns, n)[id] == Peer(None, peers[id].queue + QueuedFor(peers, turns, id, n))
  {
    if n > 0 {
      FoldQueue(peers, turns, id, n - 1);
    }
  }

  /** With a session and no expired snapshot in between: the session is gone exactly if a group of it
      was not taken in full; otherwise its counter advanced by the packets that fit. */
  lemma {:induction false} SessionAfterBatch(b: Batch, id: NodeId)
    requires Routable(b) && id in b.peers && b.peers[id].active.Some? && Unexpired(TurnsOf(b), id, |b.routed|)
    ensures var prepared, before := PreparedFrom(OutcomesOf(b)), b.peers[id];
      PeersAfter(b)[id] ==
        if SessionFails(prepared, b.world.socket, |prepared|, id, before.active.value.sessionId) then Peer(None, [])
        else Advance(before, FitsFor(TurnsOf(b), id, LimitOf(before), |b.routed|))
  {
    TurnsKnown(b);
    FoldCounter(b.peers, TurnsOf(b), id, |b.routed|);
  }

  /** An expired snapshot costs the session of every peer it finds a packet for. */
  lemma {:induction false} ExpiredAfterBatch(b: Batch, k: nat)
    requires Routable(b) && k < |b.routed| && TurnsOf(b)[k].config.expired
    ensures PeersAfter(b)[b.routed[k].peer].active.None?
  {
    TurnsKnown(b);
    TurnIs(b, |b.routed|, k);
    FoldNoSession(b.peers, TurnsOf(b), b.routed[k].peer, k + 1, |b.routed|);
  }

  /** The payloads of the peer's packets among the first `n` that were reported as sent. */
  function OkPayloads(routed: seq<Routed>, outcomes: seq<Preparation>, socket: nat -> SocketOutcome, id: NodeId, n: nat): seq<seq<Byte>>
    requires n <= |routed| == |outcomes|
  {
    if n == 0 then []
    else OkPayloads(routed, outcomes, socket, id, n - 1)
         + (if routed[n - 1].peer == id && ResultFor(outcomes, socket, n - 1).Ok? then [routed[n - 1].ip.bytes] else [])
  }

  lemma {:induction false} QueuedTurn(b: Batch, id: NodeId, k: nat)
    requires Routable(b) && id in b.peers && b.peers[id].active.None? && Unexpired(TurnsOf(b), id, |b.routed|)
    requires k < |b.routed| && b.routed[k].peer == id
    ensures OutcomesOf(b)[k] == OneAtATime(b, k) && !IsReady(OutcomesOf(b)[k])
  {
    TurnsKnown(b);
    TurnIs(b, |b.routed|, k);
    OutcomeIs(b, k);
    FoldQueue(b.peers, TurnsOf(b), id, k);
    FoldQueue(b.peers, TurnsOf(b), id, Begin(b, k));
  }

  /** The packets of the peer get what they get at their turn, and none goes on to the socket. */
  ghost predicate OnlyQueued(peers: map<NodeId, Peer>, turns: seq<Turn>, routed: seq<Routed>, outcomes: seq<Preparation>, id: NodeId) {
    && |turns| == |routed| == |outcomes| && Known(turns, peers)
    && (forall k {:trigger turns[k]} | 0 <= k < |turns| :: turns[k].peer == routed[k].peer && turns[k].ip == routed[k].ip)
    && (forall k {:trigger outcomes[k]} | 0 <= k < |turns| && routed[k].peer == id ::
          outcomes[k] == AtTurn(peers, turns, k) && !IsReady(outcomes[k]))
  }

  lemma {:induction false} QueuedAreOk(peers: map<NodeId, Peer>, turns: seq<Turn>, routed: seq<Routed>, outcomes: seq<Preparation>,
                                       socket: nat -> SocketOutcome, id: NodeId, n: nat)
    requires OnlyQueued(peers, turns, routed, outcomes, id) && n <= |turns|
    ensures QueuedFor(peers, turns, id, n) == OkPayloads(routed, outcomes, socket, id, n)
  {
    if n > 0 {
      QueuedAreOk(peers, turns, routed, outcomes, socket, id, n - 1);
      assert turns[n - 1].peer == routed[n - 1].peer;
      if routed[n - 1].peer == id {
        assert outcomes[n - 1] == AtTurn(peers, turns, n - 1);
      }
    }
  }

  lemma {:induction false} BatchOnlyQueues(b: Batch, id: NodeId)
    requires Routable(b) && id in b.peers && b.peers[id].active.None? && Unexpired(TurnsOf(b), id, |b.routed|)
    ensures OnlyQueued(b.peers, TurnsOf(b), b.routed, OutcomesOf(b), id)
  {
    TurnsKnown(b);
    forall k | 0 <= k < |b.routed| ensures TurnsOf(b)[k] == TurnAt(b, k) {
      TurnIs(b, |b.routed|, k);
    }
    forall k | 0 <= k < |b.routed| && b.routed[k].peer == id
      ensures OutcomesOf(b)[k] == AtTurn(b.peers, TurnsOf(b), k) && !IsReady(OutcomesOf(b)[k])
    {
      QueuedTurn(b, id, k);
    }
  }

  /** Without a session: the queue grows by exactly the payloads reported as sent, in order. */
  lemma {:induction false} QueueAfterBatch(b: Batch, id: NodeId)
    requires Routable(b) && id in b.peers && b.peers[id].active.None? && Unexpired(TurnsOf(b), id, |b.routed|)
    ensures PeersAfter(b)[id] ==
      Peer(None, b.peers[id].queue + OkPayloads(b.routed, OutcomesOf(b), b.world.socket, id, |b.routed|))
  {
    TurnsKnown(b);
    FoldQueue(b.peers, TurnsOf(b), id, |b.routed|);
    BatchOnlyQueues(b, id);
    QueuedAreOk(b.peers, TurnsOf(b), b.routed, OutcomesOf(b), b.world.socket, id, |b.routed|);
  }
}
