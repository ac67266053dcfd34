/** Committing decrypted data packets: the one-packet commit, and the three-pass batched
    commit that takes each session's lock once per run of packets. The passes are proved to
    leave exactly what committing the packets one by one leaves. */
module ReceiveCommit {
  import opened Base
  import opened Ip
  import opened ReplayWindow
  import opened PathMigration
  import opened PathMtu

  const HEADER_LEN := 26
  const DEFAULT_VIRTUAL_MTU := 1190
  const HISTORY_LIMIT := 32

  /** A shared peer record; two packets belong together when they hold the same one. */
  type PeerRef = nat

  datatype CandidateKind = Host | ServerReflexive | PeerReflexive

  datatype PathChange = PathChange(path: Addr, kind: CandidateKind, changedAt: nat)

  datatype ActiveSession = ActiveSession(
    sessionId: U64,
    accepted: set<U64>,
    route: Route,
    mtu: Search,
    rxBytes: nat,
    lastRx: nat,
    pathChangedAt: Option<nat>)

  /** `now` and `unixNow` are the clock readings taken when the packet is committed. */
  datatype DataPacket = DataPacket(
    peer: PeerRef, sessionId: U64, sequence: U64, source: Addr, encryptedLen: nat, payload: seq<Byte>,
    now: nat, unixNow: nat)

  datatype Parsed = Parsed(packet: DataPacket, ip: IpPacket)

  datatype Committed = Committed(
    peer: PeerRef, source: Addr, encryptedLen: nat, wireLen: nat, ip: IpPacket, pathChanged: bool, mtuReset: bool)

  datatype ControlEvent =
    | PathChangedEvent(peer: PeerRef, path: Addr)
    | PathMtuChangedEvent(peer: PeerRef, path: Addr, mtu: nat)

  datatype Sample = Sample(peer: PeerRef, path: Addr, payloadBytes: nat, encryptedBytes: nat, wireBytes: nat)

  /** What does not change while a batch is committed: configured MTU, local addresses, peer
      candidates, and for the n-th data event whether the event queue has room for it. */
  datatype Env = Env(
    virtualMtu: nat,
    local: set<IpAddr>,
    candidates: map<PeerRef, seq<(CandidateKind, Addr)>>,
    room: nat -> bool)
  {
    function SafeMtu(): nat { Min(virtualMtu, DEFAULT_VIRTUAL_MTU) }
  }

  type Tally = map<PeerRef, nat>

  function Bump(t: Tally, peer: PeerRef): Tally {
    t[peer := (if peer in t then t[peer] else 0) + 1]
  }

  datatype Sessions = Sessions(
    active: map<PeerRef, ActiveSession>, replayDrops: Tally, history: map<PeerRef, seq<PathChange>>)

  datatype Outbox = Outbox(
    accepted: Tally, samples: seq<Sample>, control: seq<ControlEvent>, data: seq<(PeerRef, IpPacket)>,
    attempts: nat, queueDrops: Tally)

  datatype Node = Node(parseFailures: Tally, sessions: Sessions, invalidDestinations: Tally, outbox: Outbox)

  // ---------------------------------------------------------------- the stages of one commit

  function KindOf(candidates: seq<(CandidateKind, Addr)>, path: Addr): CandidateKind {
    if candidates == [] then PeerReflexive
    else if candidates[0].1 == path then candidates[0].0
    else KindOf(candidates[1..], path)
  }

  function RecordPath(history: seq<PathChange>, path: Addr, kind: CandidateKind, at: nat): seq<PathChange> {
    if history != [] && history[|history| - 1].path == path then history
    else
      var longer := history + [PathChange(path, kind, at)];
      if |longer| > HISTORY_LIMIT then longer[1..] else longer
  }

  function ParseStage(t: Tally, p: DataPacket): (Tally, seq<Parsed>) {
    match Parse(p.payload)
    case Ok(ip) => (t, [Parsed(p, ip)])
    case Err(_) => (Bump(t, p.peer), [])
  }

  /** Replay, path and MTU of one packet on the session it belongs to. */
  function OnSession(env: Env, a: ActiveSession, p: DataPacket): (ActiveSession, bool, bool) {
    var (route, moved) := Observe(a.route, p.source, p.now);
    var mtu := if moved then New(env.SafeMtu(), env.virtualMtu) else a.mtu;
    (ActiveSession(a.sessionId, a.accepted + {p.sequence}, route, mtu, a.rxBytes + p.encryptedLen, p.now,
                   if moved then Some(p.unixNow) else a.pathChangedAt),
     moved,
     moved && mtu.confirmed != a.mtu.confirmed)
  }

  function HistoryAfter(env: Env, s: Sessions, p: DataPacket, moved: bool): map<PeerRef, seq<PathChange>> {
    if !moved then s.history
    else
      var candidates := if p.peer in env.candidates then env.candidates[p.peer] else [];
      var before := if p.peer in s.history then s.history[p.peer] else [];
      s.history[p.peer := RecordPath(before, p.source, KindOf(candidates, p.source), p.unixNow)]
  }

  function SessionStage(env: Env, s: Sessions, x: Parsed): (Sessions, seq<Committed>) {
    var p := x.packet;
    if p.peer !in s.active || s.active[p.peer].sessionId != p.sessionId then (s, [])
    else if !Acceptable(s.active[p.peer].accepted, p.sequence) then
      (s.(replayDrops := Bump(s.replayDrops, p.peer)), [])
    else
      var (a, moved, reset) := OnSession(env, s.active[p.peer], p);
      (Sessions(s.active[p.peer := a], s.replayDrops, HistoryAfter(env, s, p, moved)),
       [Committed(p.peer, p.source, p.encryptedLen, HEADER_LEN + p.encryptedLen, x.ip, moved, reset)])
  }

  function RouteStage(env: Env, t: Tally, c: Committed): (Tally, seq<Committed>) {
    if c.ip.destination in env.local then (t, [c]) else (Bump(t, c.peer), [])
  }

  function EmitStage(env: Env, o: Outbox, c: Committed): Outbox {
    var room := env.room(o.attempts);
    Outbox(
      Bump(o.accepted, c.peer),
      o.samples + [Sample(c.peer, c.source, |c.ip.bytes|, c.encryptedLen, c.wireLen)],
      o.control
      + (if c.pathChanged then [PathChangedEvent(c.peer, c.source)] else [])
      + (if c.mtuReset then [PathMtuChangedEvent(c.peer, c.source, env.SafeMtu())] else []),
      if room then o.data + [(c.peer, c.ip)] else o.data,
      o.attempts + 1,
      if room then o.queueDrops else Bump(o.queueDrops, c.peer))
  }

  /** One packet through all stages before the next one is looked at. */
  function CommitOne(env: Env, n: Node, p: DataPacket): Node {
    var (failures, parsed) := ParseStage(n.parseFailures, p);
    if parsed == [] then n.(parseFailures := failures)
    else
      var (sessions, committed) := SessionStage(env, n.sessions, parsed[0]);
      if committed == [] then Node(failures, sessions, n.invalidDestinations, n.outbox)
      else
        var (invalid, routed) := RouteStage(env, n.invalidDestinations, committed[0]);
        Node(failures, sessions, invalid,
             if routed == [] then n.outbox else EmitStage(env, n.outbox, routed[0]))
  }

  /** The reference for a batch: commit the packets one by one. */
  function CommitEach(env: Env, n: Node, packets: seq<DataPacket>): Node {
    if packets == [] then n
    else CommitOne(env, CommitEach(env, n, packets[..|packets| - 1]), packets[|packets| - 1])
  }

  // ---------------------------------------------------------------- whole passes

  function ParsePass(t: Tally, ps: seq<DataPacket>): (Tally, seq<Parsed>) {
    if ps == [] then (t, [])
    else
      var (before, xs) := ParsePass(t, ps[..|ps| - 1]);
      var (after, x) := ParseStage(before, ps[|ps| - 1]);
      (after, xs + x)
  }

  function SessionPass(env: Env, s: Sessions, xs: seq<Parsed>): (Sessions, seq<Committed>) {
    if xs == [] then (s, [])
    else
      var (before, cs) := SessionPass(env, s, xs[..|xs| - 1]);
      var (after, c) := SessionStage(env, before, xs[|xs| - 1]);
      (after, cs + c)
  }

  function RoutePass(env: Env, t: Tally, cs: seq<Committed>): (Tally, seq<Committed>) {
    if cs == [] then (t, [])
    else
      var (before, rs) := RoutePass(env, t, cs[..|cs| - 1]);
      var (after, r) := RouteStage(env, before, cs[|cs| - 1]);
      (after, rs + r)
  }

  function EmitPass(env: Env, o: Outbox, rs: seq<Committed>): Outbox {
    if rs == [] then o
    else EmitStage(env, EmitPass(env, o, rs[..|rs| - 1]), rs[|rs| - 1])
  }

  function CommitByPasses(env: Env, n: Node, packets: seq<DataPacket>): Node {
    var (failures, parsed) := ParsePass(n.parseFailures, packets);
    var (sessions, committed) := SessionPass(env, n.sessions, parsed);
    var (invalid, routed) := RoutePass(env, n.invalidDestinations, committed);
    Node(failures, sessions, invalid, EmitPass(env, n.outbox, routed))
  }

  lemma {:induction false} SessionPassMore(env: Env, s: Sessions, xs: seq<Parsed>, more: seq<Parsed>)
    requires |more| <= 1
    ensures SessionPass(env, s, xs + more) ==
            if more == [] then SessionPass(env, s, xs)
            else
              var (before, cs) := SessionPass(env, s, xs);
              var (after, c) := SessionStage(env, before, more[0]);
              (after, cs + c)
  {
    if more == [] {
      assert xs + more == xs;
    } else {
      assert (xs + more)[..|xs|] == xs;
    }
  }

  lemma {:induction false} RoutePassMore(env: Env, t: Tally, cs: seq<Committed>, more: seq<Committed>)
    requires |more| <= 1
    ensures RoutePass(env, t, cs + more) ==
            if more == [] then RoutePass(env, t, cs)
            else
              var (before, rs) := RoutePass(env, t, cs);
              var (after, r) := RouteStage(env, before, more[0]);
              (after, rs + r)
  {
    if more == [] {
      assert cs + more == cs;
    } else {
      assert (cs + more)[..|cs|] == cs;
    }
  }

  lemma {:induction false} EmitPassMore(env: Env, o: Outbox, rs: seq<Committed>, more: seq<Committed>)
    requires |more| <= 1
    ensures EmitPass(env, o, rs + more) ==
            if more == [] then EmitPass(env, o, rs) else EmitStage(env, EmitPass(env, o, rs), more[0])
  {
    if more == [] {
      assert rs + more == rs;
    } else {
      assert (rs + more)[..|rs|] == rs;
    }
  }

  lemma {:induction false} ParsePassMore(t: Tally, ps: seq<DataPacket>, p: DataPacket)
    ensures var (before, xs) := ParsePass(t, ps);
            var (after, x) := ParseStage(before, p);
            ParsePass(t, ps + [p]) == (after, xs + x)
  {
  }

  /** One more packet at the end of a batch goes through every pass last, which is where the
      one-packet commit would have put it. */
  lemma {:induction false} PassesOneMore(env: Env, n: Node, packets: seq<DataPacket>, p: DataPacket)
    ensures CommitByPasses(env, n, packets + [p]) == CommitOne(env, CommitByPasses(env, n, packets), p)
  {
    var (failures, parsed) := ParsePass(n.parseFailures, packets);
    var (sessions, committed) := SessionPass(env, n.sessions, parsed);
    var (invalid, routed) := RoutePass(env, n.invalidDestinations, committed);
    ParsePassMore(n.parseFailures, packets, p);
    var x := ParseStage(failures, p).1;
    SessionPassMore(env, n.sessions, parsed, x);
    if x == [] {
      assert parsed + x == parsed;
    } else {
      var c := SessionStage(env, sessions, x[0]).1;
      RoutePassMore(env, n.invalidDestinations, committed, c);
      if c == [] {
        assert committed + c == committed;
      } else {
        var r := RouteStage(env, invalid, c[0]).1;
        EmitPassMore(env, n.outbox, routed, r);
      }
    }
  }

  lemma {:induction false} PassesNone(env: Env, n: Node)
    ensures CommitByPasses(env, n, []) == n
  {
  }

  /** The order of the passes does not show: for every batch, mixing any sessions, replays,
      bad payloads and foreign destinations, pass by pass equals packet by packet. */
  lemma {:induction false} PassesEqualEach(env: Env, n: Node, packets: seq<DataPacket>)
    ensures CommitByPasses(env, n, packets) == CommitEach(env, n, packets)
  {
    if packets == [] {
      PassesNone(env, n);
    } else {
      var before, p := packets[..|packets| - 1], packets[|packets| - 1];
      PassesEqualEach(env, n, before);
      PassesOneMore(env, n, before, p);
      assert packets == before + [p];
    }
  }

  // ---------------------------------------------------------------- no packet unaccounted for

  function CountIn(t: Tally, peer: PeerRef): nat {
    if peer in t then t[peer] else 0
  }

  /** A well-formed packet of a session that is not the peer's active one is ignored. */
  predicate Ignored(active: map<PeerRef, ActiveSession>, p: DataPacket) {
    Parse(p.payload).Ok? && (p.peer !in active || active[p.peer].sessionId != p.sessionId)
  }

  /** How many packets of a peer are not ignored. */
  function Handled(active: map<PeerRef, ActiveSession>, packets: seq<DataPacket>, peer: PeerRef): nat {
    if packets == [] then 0
    else
      var p := packets[|packets| - 1];
      Handled(active, packets[..|packets| - 1], peer) + One(p.peer == peer && !Ignored(active, p))
  }

  /** The four outcomes a handled packet of the peer can have had. */
  function Outcomes(n: Node, peer: PeerRef): nat {
    CountIn(n.parseFailures, peer) + CountIn(n.sessions.replayDrops, peer)
    + CountIn(n.invalidDestinations, peer) + CountIn(n.outbox.accepted, peer)
  }

  /** The data events of a peer that reached the queue. */
  function EventsOf(data: seq<(PeerRef, IpPacket)>, peer: PeerRef): nat {
    if data == [] then 0 else EventsOf(data[..|data| - 1], peer) + (if data[|data| - 1].0 == peer then 1 else 0)
  }

  predicate SameSessions(a: map<PeerRef, ActiveSession>, b: map<PeerRef, ActiveSession>) {
    a.Keys == b.Keys && forall r | r in a :: a[r].sessionId == b[r].sessionId
  }

  function One(b: bool): nat { if b then 1 else 0 }

  lemma {:induction false} BumpCounts(t: Tally, bumped: PeerRef, peer: PeerRef)
    ensures CountIn(Bump(t, bumped), peer) == CountIn(t, peer) + One(bumped == peer)
  {
  }

  lemma {:induction false} SessionStageAccounts(env: Env, s: Sessions, x: Parsed, peer: PeerRef)
    ensures var (s', cs) := SessionStage(env, s, x);
      var p := x.packet;
      && SameSessions(s.active, s'.active)
      && (cs != [] ==> cs[0].peer == p.peer)
      && CountIn(s'.replayDrops, peer) + One(cs != [] && p.peer == peer) == CountIn(s.replayDrops, peer)
           + One(p.peer == peer && p.peer in s.active && s.active[p.peer].sessionId == p.sessionId)
  {
  }

  lemma {:induction false} RouteAndEmitAccount(env: Env, t: Tally, o: Outbox, c: Committed, peer: PeerRef)
    ensures var (t', rs) := RouteStage(env, t, c);
      var o' := if rs == [] then o else EmitStage(env, o, rs[0]);
      CountIn(t', peer) + CountIn(o'.accepted, peer) == CountIn(t, peer) + CountIn(o.accepted, peer) + One(c.peer == peer)
  {
  }

  lemma {:induction false} CommitOneAccounts(env: Env, n: Node, p: DataPacket, peer: PeerRef)
    ensures var n' := CommitOne(env, n, p);
      && SameSessions(n.sessions.active, n'.sessions.active)
      && Outcomes(n', peer) == Outcomes(n, peer) + One(p.peer == peer && !Ignored(n.sessions.active, p))
  {
    BumpCounts(n.parseFailures, p.peer, peer);
    var parsed := ParseStage(n.parseFailures, p).1;
    if parsed != [] {
      SessionStageAccounts(env, n.sessions, parsed[0], peer);
      var committed := SessionStage(env, n.sessions, parsed[0]).1;
      if committed != [] {
        RouteAndEmitAccount(env, n.invalidDestinations, n.outbox, committed[0], peer);
      }
    }
  }

  lemma {:induction false} EmitAccounts(env: Env, o: Outbox, c: Committed, peer: PeerRef)
    ensures var o' := EmitStage(env, o, c);
      CountIn(o'.accepted, peer) - CountIn(o.accepted, peer) ==
        EventsOf(o'.data, peer) + CountIn(o'.queueDrops, peer) - EventsOf(o.data, peer) - CountIn(o.queueDrops, peer)
  {
  }

  /** Every packet of a peer ends in exactly one of its counters, unless its session is not the
      active one; and every accepted packet is a data event or a counted queue drop. */
  lemma {:induction false} BatchAccounts(env: Env, n: Node, packets: seq<DataPacket>, peer: PeerRef)
    ensures var n' := CommitEach(env, n, packets);
      && SameSessions(n.sessions.active, n'.sessions.active)
      && Outcomes(n', peer) == Outcomes(n, peer) + Handled(n.sessions.active, packets, peer)
      && CountIn(n'.outbox.accepted, peer) - CountIn(n.outbox.accepted, peer) ==
           EventsOf(n'.outbox.data, peer) + CountIn(n'.outbox.queueDrops, peer)
           - EventsOf(n.outbox.data, peer) - CountIn(n.outbox.queueDrops, peer)
  {
    if packets != [] {
      var before, p := packets[..|packets| - 1], packets[|packets| - 1];
      BatchAccounts(env, n, before, peer);
      var m := CommitEach(env, n, before);
      CommitOneAccounts(env, m, p, peer);
      CommitOneEmits(env, m, p, peer);
    }
  }

  lemma {:induction false} CommitOneEmits(env: Env, n: Node, p: DataPacket, peer: PeerRef)
    ensures var o, o' := n.outbox, CommitOne(env, n, p).outbox;
      CountIn(o'.accepted, peer) - CountIn(o.accepted, peer) ==
        EventsOf(o'.data, peer) + CountIn(o'.queueDrops, peer) - EventsOf(o.data, peer) - CountIn(o.queueDrops, peer)
  {
    var parsed := ParseStage(n.parseFailures, p).1;
    if parsed != [] {
      var committed := SessionStage(env, n.sessions, parsed[0]).1;
      if committed != [] {
        EmitAccounts(env, n.outbox, committed[0], peer);
      }
    }
  }

  // ---------------------------------------------------------------- the code, in place

  class Receiver {
    const env: Env
    var parseFailures: Tally
    var active: map<PeerRef, ActiveSession>
    var replayDrops: Tally
    var history: map<PeerRef, seq<PathChange>>
    var invalidDestinations: Tally
    var outbox: Outbox

    ghost function View(): Node
      reads this
    {
      Node(parseFailures, Sessions(active, replayDrops, history), invalidDestinations, outbox)
    }

    constructor (env: Env, active: map<PeerRef, ActiveSession>)
      ensures this.env == env
      ensures View() == Node(map[], Sessions(active, map[], map[]), map[], Outbox(map[], [], [], [], 0, map[]))
    {
      this.env := env;
      parseFailures := map[];
      this.active := active;
      replayDrops := map[];
      history := map[];
      invalidDestinations := map[];
      outbox := Outbox(map[], [], [], [], 0, map[]);
    }

    /** Replay, path and MTU handling of one packet under its session's lock. */
    method CommitOnSession(x: Parsed) returns (committed: seq<Committed>)
      requires x.packet.peer in active && active[x.packet.peer].sessionId == x.packet.sessionId
      modifies this`active, this`replayDrops, this`history
      ensures (Sessions(active, replayDrops, history), committed)
           == SessionStage(env, old(Sessions(active, replayDrops, history)), x)
    {
      var p := x.packet;
      var session := active[p.peer];
      if !Acceptable(session.accepted, p.sequence) {
        replayDrops := Bump(replayDrops, p.peer);
        return [];
      }
      session := session.(accepted := session.accepted + {p.sequence}, lastRx := p.now);
      var (route, pathChanged) := Observe(session.route, p.source, p.now);
      session := session.(route := route);
      var mtuReset := false;
      if pathChanged {
        session := session.(pathChangedAt := Some(p.unixNow));
        var candidates := if p.peer in env.candidates then env.candidates[p.peer] else [];
        var before := if p.peer in history then history[p.peer] else [];
        history := history[p.peer := RecordPath(before, p.source, KindOf(candidates, p.source), p.unixNow)];
        var fresh_ := New(env.SafeMtu(), env.virtualMtu);
        mtuReset := fresh_.confirmed != session.mtu.confirmed;
        session := session.(mtu := fresh_);
      }
      session := session.(rxBytes := session.rxBytes + p.encryptedLen);
      active := active[p.peer := session];
      committed := [Committed(p.peer, p.source, p.encryptedLen, HEADER_LEN + p.encryptedLen, x.ip, pathChanged, mtuReset)];
    }

    method Emit(c: Committed)
      modifies this`outbox
      ensures outbox == EmitStage(env, old(outbox), c)
    {
      var o := outbox.(
        accepted := Bump(outbox.accepted, c.peer),
        samples := outbox.samples + [Sample(c.peer, c.source, |c.ip.bytes|, c.encryptedLen, c.wireLen)]);
      if c.pathChanged {
        o := o.(control := o.control + [PathChangedEvent(c.peer, c.source)]);
      }
      if c.mtuReset {
        o := o.(control := o.control + [PathMtuChangedEvent(c.peer, c.source, env.SafeMtu())]);
      }
      if env.room(o.attempts) {
        o := o.(data := o.data + [(c.peer, c.ip)], attempts := o.attempts + 1);
      } else {
        o := o.(queueDrops := Bump(o.queueDrops, c.peer), attempts := o.attempts + 1);
      }
      outbox := o;
    }

    method CommitIpData(p: DataPacket) returns (r: Result<(), IpError>)
      modifies this
      ensures View() == CommitOne(env, old(View()), p)
      ensures r.Err? <==> parseFailures != old(parseFailures) || invalidDestinations != old(invalidDestinations)
    {
      var parsed := Parse(p.payload);
      if parsed.Err? {
        parseFailures := Bump(parseFailures, p.peer);
        return Err(parsed.error);
      }
      var ip := parsed.value;
      if p.peer !in active || active[p.peer].sessionId != p.sessionId {
        return Ok(());
      }
      var committed := CommitOnSession(Parsed(p, ip));
      if committed == [] {
        return Ok(());
      }
      if ip.destination !in env.local {
        invalidDestinations := Bump(invalidDestinations, p.peer);
        return Err(DestinationUnknown(ip.destination));
      }
      Emit(committed[0]);
      r := Ok(());
    }

    method ParseBatch(packets: seq<DataPacket>) returns (parsed: seq<Parsed>)
      modifies this`parseFailures
      ensures (parseFailures, parsed) == ParsePass(old(parseFailures), packets)
    {
      parsed := [];
      for i := 0 to |packets|
        invariant (parseFailures, parsed) == ParsePass(old(parseFailures), packets[..i])
      {
        assert packets[..i + 1][..i] == packets[..i];
        match Parse(packets[i].payload)
        case Err(_) =>
          parseFailures := Bump(parseFailures, packets[i].peer);
          assert parsed + [] == parsed;
        case Ok(ip) => parsed := parsed + [Parsed(packets[i], ip)];
      }
      assert packets[..|packets|] == packets;
    }

    /** The middle pass: one lock per run of consecutive packets of the same peer and session. */
    method CommitRuns(parsed: seq<Parsed>) returns (committed: seq<Committed>)
      modifies this`active, this`replayDrops, this`history
      ensures (Sessions(active, replayDrops, history), committed)
           == SessionPass(env, old(Sessions(active, replayDrops, history)), parsed)
    {
      ghost var was := Sessions(active, replayDrops, history);
      committed := [];
      var start := 0;
      while start < |parsed|
        invariant 0 <= start <= |parsed|
        invariant (Sessions(active, replayDrops, history), committed) == SessionPass(env, was, parsed[..start])
      {
        var peer := parsed[start].packet.peer;
        var sessionId := parsed[start].packet.sessionId;
        var end := start + 1;
        while end < |parsed| && parsed[end].packet.peer == peer && parsed[end].packet.sessionId == sessionId
          invariant start < end <= |parsed|
          invariant forall i | start <= i < end :: parsed[i].packet.peer == peer && parsed[i].packet.sessionId == sessionId
        {
          end := end + 1;
        }
        if peer !in active || active[peer].sessionId != sessionId {
          SkipRun(env, was, parsed, start, end);
          start := end;
          continue;
        }
        for i := start to end
          invariant peer in active && active[peer].sessionId == sessionId
          invariant (Sessions(active, replayDrops, history), committed) == SessionPass(env, was, parsed[..i])
        {
          assert parsed[..i + 1][..i] == parsed[..i];
          var c := CommitOnSession(parsed[i]);
          committed := committed + c;
        }
        start := end;
      }
      assert parsed[..|parsed|] == parsed;
    }

    method FilterRoutes(committed: seq<Committed>) returns (routed: seq<Committed>)
      modifies this`invalidDestinations
      ensures (invalidDestinations, routed) == RoutePass(env, old(invalidDestinations), committed)
    {
      routed := [];
      for i := 0 to |committed|
        invariant (invalidDestinations, routed) == RoutePass(env, old(invalidDestinations), committed[..i])
      {
        assert committed[..i + 1][..i] == committed[..i];
        if committed[i].ip.destination !in env.local {
          invalidDestinations := Bump(invalidDestinations, committed[i].peer);
          assert routed + [] == routed;
        } else {
          routed := routed + [committed[i]];
        }
      }
      assert committed[..|committed|] == committed;
    }

    /** The batched commit leaves the same replay windows, paths, MTU states, byte and drop
        counters, and emits the same events in the same order, as one commit per packet. */
    method CommitIpDataBatch(packets: seq<DataPacket>)
      modifies this
      ensures View() == CommitEach(env, old(View()), packets)
    {
      if packets == [] {
        return;
      }
      ghost var was := View();
      var parsed := ParseBatch(packets);
      var committed := CommitRuns(parsed);
      var accepted := FilterRoutes(committed);
      for i := 0 to |accepted|
        invariant outbox == EmitPass(env, was.outbox, accepted[..i])
        invariant View() == Node(parseFailures, Sessions(active, replayDrops, history), invalidDestinations, outbox)
        invariant (parseFailures, parsed) == ParsePass(was.parseFailures, packets)
        invariant (Sessions(active, replayDrops, history), committed) == SessionPass(env, was.sessions, parsed)
        invariant (invalidDestinations, accepted) == RoutePass(env, was.invalidDestinations, committed)
      {
        assert accepted[..i + 1][..i] == accepted[..i];
        Emit(accepted[i]);
      }
      assert accepted[..|accepted|] == accepted;
      PassesEqualEach(env, was, packets);
    }
  }

  /** Packets of a session that is not the peer's active one change nothing. */
  lemma {:induction false} SkipRun(env: Env, s: Sessions, xs: seq<Parsed>, start: nat, end: nat)
    requires start <= end <= |xs|
    requires var after := SessionPass(env, s, xs[..start]).0;
             forall i | start <= i < end ::
               var p := xs[i].packet;
               p.peer !in after.active || after.active[p.peer].sessionId != p.sessionId
    ensures SessionPass(env, s, xs[..end]) == SessionPass(env, s, xs[..start])
    decreases end
  {
    if start < end {
      SkipRun(env, s, xs, start, end - 1);
      assert xs[..end][..end - 1] == xs[..end - 1];
      var (_, cs) := SessionPass(env, s, xs[..start]);
      assert cs + [] == cs;
    }
  }
}
