/** The peer handshake and the nonces it makes safe: probes, a two-message Noise exchange
    whose initiator is always the smaller node id, and the sequence counters of the sessions
    it installs, over a network that loses, duplicates and reorders. Noise is symbolic: a
    reply can be read only by the initiator state it answers, and the session keys are a
    function of the two ephemerals and the two identities. Handlers are atomic and peer
    records do not change during the run. */
module Handshake {
  import opened Base

  type Node = nat

  /** Ephemeral keys are drawn fresh; a number names each. */
  type Ephemeral = nat

  datatype Transcript = Transcript(initiator: Node, responder: Node, ei: Ephemeral, er: Ephemeral)

  /** The two datagram keys of a session. */
  datatype Key = InitiatorKey(transcript: Transcript) | ResponderKey(transcript: Transcript)

  datatype Packet =
    | Probe(from: Node, to: Node, sid: U64)
    | ProbeResponse(from: Node, to: Node, sid: U64)
    | Hello(from: Node, to: Node, sid: U64, ei: Ephemeral)
    | Reply(from: Node, to: Node, sid: U64, ei: Ephemeral, er: Ephemeral)

  /** A connection attempt, with the initiator's Noise state once it is created. */
  datatype Attempt = Attempt(sid: U64, handshake: Option<Ephemeral>)

  /** An active session, named by the entry of `installs` that established it. */
  datatype Session = Session(sid: U64, install: nat)

  datatype Peer = Peer(attempt: Option<Attempt>, active: Option<Session>)

  datatype Install = Install(node: Node, peer: Node, sid: U64, transcript: Transcript)

  /** One sequence number handed out by a session for one encryption. */
  datatype Issue = Issue(install: nat, sequence: nat)

  datatype State = State(
    peers: map<(Node, Node), Peer>,
    net: set<Packet>,
    nextEphemeral: Ephemeral,
    installs: seq<Install>,
    counts: seq<nat>,
    issues: seq<Issue>)

  /** `valid` is the outcome of membership and context checks, `sent` that of the socket,
      `recent` whether the same path was tried within the retry interval. */
  datatype Step =
    | Connect(node: Node, peer: Node, sid: U64)
    | Timeout(node: Node, peer: Node)
    | Invalidate(node: Node, peer: Node)
    | Rekey(node: Node, peer: Node, sid: U64, sent: bool)
    | ReceiveProbe(packet: Packet, valid: bool, recent: bool, sent: bool)
    | ReceiveProbeResponse(packet: Packet, valid: bool, recent: bool, sent: bool)
    | ReceiveHello(packet: Packet, valid: bool, sent: bool)
    | ReceiveReply(packet: Packet, valid: bool)
    | Encrypt(node: Node, peer: Node)

  const INIT := State(map[], {}, 0, [], [], [])

  function PeerOf(s: State, n: Node, p: Node): Peer {
    if (n, p) in s.peers then s.peers[(n, p)] else Peer(None, None)
  }

  function WithPeer(s: State, n: Node, p: Node, peer: Peer): State {
    s.(peers := s.peers[(n, p) := peer])
  }

  function Send(s: State, packet: Packet): State {
    s.(net := s.net + {packet})
  }

  /** Sends the first handshake message of the current attempt, creating it if there is none;
      a message that was created but not sent is forgotten. */
  function StartInitiator(s: State, n: Node, p: Node, sid: U64, recent: bool, sent: bool): State {
    var peer := PeerOf(s, n, p);
    if peer.active.Some? || peer.attempt.None? || peer.attempt.value.sid != sid then s
    else
      match peer.attempt.value.handshake
      case Some(ei) => if recent || !sent then s else Send(s, Hello(n, p, sid, ei))
      case None =>
        var ei := s.nextEphemeral;
        var s' := s.(nextEphemeral := ei + 1);
        if !sent then s'
        else Send(WithPeer(s', n, p, peer.(attempt := Some(Attempt(sid, Some(ei))))), Hello(n, p, sid, ei))
  }

  /** Replaces whatever session was active; the connection attempt is over. */
  function Establish(s: State, n: Node, p: Node, sid: U64, t: Transcript): State {
    WithPeer(s, n, p, Peer(None, Some(Session(sid, |s.installs|))))
      .(installs := s.installs + [Install(n, p, sid, t)], counts := s.counts + [0])
  }

  function Apply(s: State, step: Step): State {
    match step
    case Connect(n, p, sid) =>
      if n == p || PeerOf(s, n, p).active.Some? then s
      else Send(WithPeer(s, n, p, Peer(Some(Attempt(sid, None)), None)), Probe(n, p, sid))
    case Timeout(n, p) => WithPeer(s, n, p, PeerOf(s, n, p).(attempt := None))
    case Invalidate(n, p) => WithPeer(s, n, p, Peer(None, None))
    case Rekey(n, p, sid, sent) =>
      if PeerOf(s, n, p).active.None? then s
      else if n < p then StartInitiator(WithPeer(s, n, p, Peer(Some(Attempt(sid, None)), None)), n, p, sid, false, sent)
      else WithPeer(s, n, p, Peer(None, None))
    case ReceiveProbe(packet, valid, recent, sent) =>
      if packet !in s.net || !packet.Probe? || !valid then s
      else
        var n, p, sid := packet.to, packet.from, packet.sid;
        var answered := Send(s, ProbeResponse(n, p, sid));
        if n >= p then answered
        else
          var peer := PeerOf(s, n, p);
          var replace := peer.attempt.None? || (peer.attempt.value.handshake.None? && peer.attempt.value.sid != sid);
          StartInitiator(if replace then WithPeer(answered, n, p, peer.(attempt := Some(Attempt(sid, None)))) else answered,
                         n, p, sid, recent, sent)
    case ReceiveProbeResponse(packet, valid, recent, sent) =>
      if packet !in s.net || !packet.ProbeResponse? || !valid then s
      else
        var n, p, sid := packet.to, packet.from, packet.sid;
        var attempt := PeerOf(s, n, p).attempt;
        if attempt.None? || attempt.value.sid != sid || n >= p then s else StartInitiator(s, n, p, sid, recent, sent)
    case ReceiveHello(packet, valid, sent) =>
      if packet !in s.net || !packet.Hello? || !valid then s
      else
        var n, p, sid := packet.to, packet.from, packet.sid;
        var active := PeerOf(s, n, p).active;
        if (active.Some? && active.value.sid == sid) || n < p then s
        else
          var er := s.nextEphemeral;
          var s' := s.(nextEphemeral := er + 1);
          if !sent then s'
          else Establish(Send(s', Reply(n, p, sid, packet.ei, er)), n, p, sid, Transcript(p, n, packet.ei, er))
    case ReceiveReply(packet, valid) =>
      if packet !in s.net || !packet.Reply? then s
      else
        var n, p, sid := packet.to, packet.from, packet.sid;
        var peer := PeerOf(s, n, p);
        if || (peer.active.Some? && peer.active.value.sid == sid) || n > p
           || peer.attempt.None? || peer.attempt.value.sid != sid || peer.attempt.value.handshake.None? then s
        else if peer.attempt.value.handshake.value != packet.ei || !valid then
          WithPeer(s, n, p, peer.(attempt := Some(Attempt(sid, None))))
        else Establish(s, n, p, sid, Transcript(n, p, packet.ei, packet.er))
    case Encrypt(n, p) =>
      match PeerOf(s, n, p).active
      case None => s
      case Some(session) =>
        if session.install >= |s.counts| then s
        else
          var next := s.counts[session.install] + 1;
          s.(counts := s.counts[session.install := next], issues := s.issues + [Issue(session.install, next)])
  }

  function Exec(run: seq<Step>): State {
    if run == [] then INIT else Apply(Exec(run[..|run| - 1]), run[|run| - 1])
  }

  // ---------------------------------------------------------------- what every run keeps

  predicate AsInitiator(i: Install) { i.transcript.initiator == i.node }

  /** The key a session encrypts with: its own direction of the transcript. */
  function TxKey(i: Install): Key {
    if AsInitiator(i) then InitiatorKey(i.transcript) else ResponderKey(i.transcript)
  }

  function RxKey(i: Install): Key {
    if AsInitiator(i) then ResponderKey(i.transcript) else InitiatorKey(i.transcript)
  }

  /** A first message names its initiator, peer and session; no other message shares its
      ephemeral. */
  ghost predicate HellosOwned(s: State) {
    && (forall h | h in s.net && h.Hello? :: h.from < h.to && h.ei < s.nextEphemeral)
    && (forall h, g | h in s.net && g in s.net && h.Hello? && g.Hello? && h.ei == g.ei :: h == g)
  }

  /** An initiator state belongs to the message sent for it and was not used yet. */
  ghost predicate StatesOwned(s: State) {
    forall n, p | (n, p) in s.peers && s.peers[(n, p)].attempt.Some? && s.peers[(n, p)].attempt.value.handshake.Some? ::
      var a := s.peers[(n, p)].attempt.value;
      && Hello(n, p, a.sid, a.handshake.value) in s.net
      && forall i | i in s.installs && AsInitiator(i) :: i.transcript.ei != a.handshake.value
  }

  /** Behind every reply is the message it answers and the responder's own session. */
  ghost predicate RepliesInstalled(s: State) {
    forall r | r in s.net && r.Reply? ::
      && r.to < r.from && r.er < s.nextEphemeral
      && Hello(r.to, r.from, r.sid, r.ei) in s.net
      && Install(r.from, r.to, r.sid, Transcript(r.to, r.from, r.ei, r.er)) in s.installs
  }

  /** Entry `k` is well formed, and if an initiator made it the responder came first. */
  ghost predicate InstallAgreed(s: State, k: nat)
    requires k < |s.installs|
  {
    var i := s.installs[k];
    && i.transcript.ei < s.nextEphemeral && i.transcript.er < s.nextEphemeral
    && i.transcript.initiator < i.transcript.responder
    && (if AsInitiator(i) then i.peer == i.transcript.responder
        else i.node == i.transcript.responder && i.peer == i.transcript.initiator)
    && (AsInitiator(i) ==>
          exists j :: 0 <= j < k && s.installs[j] == Install(i.peer, i.node, i.sid, i.transcript))
  }

  /** One initiator state makes one session, and so does one responder state. */
  ghost predicate InstallsDistinct(s: State) {
    forall j, k | 0 <= j < k < |s.installs| && AsInitiator(s.installs[j]) == AsInitiator(s.installs[k]) ::
      if AsInitiator(s.installs[j]) then s.installs[j].transcript.ei != s.installs[k].transcript.ei
      else s.installs[j].transcript.er != s.installs[k].transcript.er
  }

  /** Active sessions are installed ones, each held in one place only. */
  ghost predicate ActiveInstalled(s: State) {
    forall n, p | (n, p) in s.peers && s.peers[(n, p)].active.Some? ::
      var a := s.peers[(n, p)].active.value;
      && a.install < |s.installs|
      && s.installs[a.install].node == n && s.installs[a.install].peer == p && s.installs[a.install].sid == a.sid
  }

  /** Each session has handed out 1, 2, ..., its count, each once. */
  ghost predicate IssuesCounted(s: State) {
    && |s.counts| == |s.installs|
    && (forall a | 0 <= a < |s.issues| ::
          s.issues[a].install < |s.counts| && 1 <= s.issues[a].sequence <= s.counts[s.issues[a].install])
    && (forall a, b | 0 <= a < b < |s.issues| :: s.issues[a] != s.issues[b])
    && (forall k, q | 0 <= k < |s.counts| && 1 <= q <= s.counts[k] :: Issue(k, q) in s.issues)
  }

  ghost predicate Inv(s: State) {
    && HellosOwned(s)
    && StatesOwned(s)
    && RepliesInstalled(s)
    && (forall k: nat | k < |s.installs| :: InstallAgreed(s, k))
    && InstallsDistinct(s)
    && ActiveInstalled(s)
    && IssuesCounted(s)
  }

  // ---------------------------------------------------------------- step by step

  /** Forgetting an attempt or a session, or starting an attempt without Noise state. */
  lemma {:induction false} WeakerPeer(s: State, n: Node, p: Node, peer: Peer)
    requires Inv(s)
    requires peer.attempt.Some? && peer.attempt.value.handshake.Some? ==> peer.attempt == PeerOf(s, n, p).attempt
    requires peer.active.Some? ==> peer.active == PeerOf(s, n, p).active
    ensures Inv(WithPeer(s, n, p, peer))
  {
    var s' := WithPeer(s, n, p, peer);
    assert forall k: nat | k < |s.installs| :: InstallAgreed(s, k) ==> InstallAgreed(s', k);
  }

  lemma {:induction false} SendKeeps(s: State, packet: Packet)
    requires Inv(s) && (packet.Probe? || packet.ProbeResponse? || packet in s.net)
    ensures Inv(Send(s, packet))
  {
    var s' := Send(s, packet);
    assert forall k: nat | k < |s.installs| :: InstallAgreed(s, k) ==> InstallAgreed(s', k);
  }

  lemma {:induction false} FreshKeeps(s: State)
    requires Inv(s)
    ensures Inv(s.(nextEphemeral := s.nextEphemeral + 1))
  {
    var s' := s.(nextEphemeral := s.nextEphemeral + 1);
    assert forall k: nat | k < |s.installs| :: InstallAgreed(s, k) ==> InstallAgreed(s', k);
  }

  /** A new initiator state and its message, on an ephemeral nobody has seen. */
  function WithHello(s: State, n: Node, p: Node, sid: U64, active: Option<Session>): State {
    var ei := s.nextEphemeral;
    Send(WithPeer(s.(nextEphemeral := ei + 1), n, p, Peer(Some(Attempt(sid, Some(ei))), active)), Hello(n, p, sid, ei))
  }

  lemma {:induction false} HelloOwned(s: State, n: Node, p: Node, sid: U64, active: Option<Session>)
    requires HellosOwned(s) && RepliesInstalled(s) && n < p
    ensures HellosOwned(WithHello(s, n, p, sid, active)) && RepliesInstalled(WithHello(s, n, p, sid, active))
  {
  }

  lemma {:induction false} HelloStates(s: State, n: Node, p: Node, sid: U64, active: Option<Session>)
    requires StatesOwned(s) && forall k: nat | k < |s.installs| :: InstallAgreed(s, k)
    ensures StatesOwned(WithHello(s, n, p, sid, active))
  {
    forall i | i in s.installs ensures i.transcript.ei != s.nextEphemeral {
      var k :| 0 <= k < |s.installs| && s.installs[k] == i;
      assert InstallAgreed(s, k);
    }
  }

  lemma {:induction false} HelloKeeps(s: State, n: Node, p: Node, sid: U64, active: Option<Session>)
    requires Inv(s) && n < p && active == PeerOf(s, n, p).active
    ensures Inv(WithHello(s, n, p, sid, active))
  {
    var s' := WithHello(s, n, p, sid, active);
    HelloOwned(s, n, p, sid, active);
    HelloStates(s, n, p, sid, active);
    assert forall k: nat | k < |s.installs| :: InstallAgreed(s, k) ==> InstallAgreed(s', k);
  }

  lemma {:induction false} StartInitiatorKeeps(s: State, n: Node, p: Node, sid: U64, recent: bool, sent: bool)
    requires Inv(s) && n < p
    ensures Inv(StartInitiator(s, n, p, sid, recent, sent))
  {
    var peer := PeerOf(s, n, p);
    if !(peer.active.Some? || peer.attempt.None? || peer.attempt.value.sid != sid) {
      match peer.attempt.value.handshake
      case Some(ei) => SendKeeps(s, Hello(n, p, sid, ei));
      case None =>
        FreshKeeps(s);
        HelloKeeps(s, n, p, sid, peer.active);
    }
  }

  /** A new entry at the end of `installs`, made from a fresh ephemeral of its own side and, if
      by the initiator, after the responder's. */
  ghost predicate Establishes(s: State, n: Node, p: Node, sid: U64, t: Transcript) {
    && t.ei < s.nextEphemeral && t.er < s.nextEphemeral && t.initiator < t.responder
    && ((n == t.initiator && p == t.responder) || (n == t.responder && p == t.initiator))
    && (n == t.initiator ==> Install(p, n, sid, t) in s.installs)
    && forall i | i in s.installs && AsInitiator(i) == (n == t.initiator) ::
         if n == t.initiator then i.transcript.ei != t.ei else i.transcript.er != t.er
  }

  lemma {:induction false} EstablishAgrees(s: State, n: Node, p: Node, sid: U64, t: Transcript, k: nat)
    requires Establishes(s, n, p, sid, t) && k <= |s.installs|
    requires k < |s.installs| ==> InstallAgreed(s, k)
    ensures InstallAgreed(Establish(s, n, p, sid, t), k)
  {
    var s', last := Establish(s, n, p, sid, t), |s.installs|;
    if k < last {
      if AsInitiator(s.installs[k]) {
        var i := s.installs[k];
        var j :| 0 <= j < k && s.installs[j] == Install(i.peer, i.node, i.sid, i.transcript);
        assert s'.installs[j] == s.installs[j];
      }
    } else if n == t.initiator {
      var j :| 0 <= j < last && s.installs[j] == Install(p, n, sid, t);
      assert s'.installs[j] == s.installs[j];
    }
  }

  lemma {:induction false} EstablishDistinct(s: State, n: Node, p: Node, sid: U64, t: Transcript)
    requires InstallsDistinct(s) && Establishes(s, n, p, sid, t)
    ensures InstallsDistinct(Establish(s, n, p, sid, t))
  {
  }

  lemma {:induction false} EstablishOwned(s: State, n: Node, p: Node, sid: U64, t: Transcript)
    requires HellosOwned(s) && StatesOwned(s) && RepliesInstalled(s)
    requires n == t.initiator ==> forall m, q | (m, q) in s.peers && (m, q) != (n, p)
               && s.peers[(m, q)].attempt.Some? && s.peers[(m, q)].attempt.value.handshake.Some? ::
               s.peers[(m, q)].attempt.value.handshake.value != t.ei
    ensures var s' := Establish(s, n, p, sid, t); HellosOwned(s') && StatesOwned(s') && RepliesInstalled(s')
  {
  }

  lemma {:induction false} EstablishKeeps(s: State, n: Node, p: Node, sid: U64, t: Transcript)
    requires Inv(s) && Establishes(s, n, p, sid, t)
    requires n == t.initiator ==> forall m, q | (m, q) in s.peers && (m, q) != (n, p)
               && s.peers[(m, q)].attempt.Some? && s.peers[(m, q)].attempt.value.handshake.Some? ::
               s.peers[(m, q)].attempt.value.handshake.value != t.ei
    ensures Inv(Establish(s, n, p, sid, t))
  {
    var s' := Establish(s, n, p, sid, t);
    EstablishOwned(s, n, p, sid, t);
    EstablishDistinct(s, n, p, sid, t);
    forall k: nat | k < |s'.installs| ensures InstallAgreed(s', k) {
      EstablishAgrees(s, n, p, sid, t, k);
    }
    assert IssuesCounted(s');
  }

  lemma {:induction false} ReceiveHelloKeeps(s: State, step: Step)
    requires Inv(s) && step.ReceiveHello?
    ensures Inv(Apply(s, step))
  {
    var packet := step.packet;
    if packet in s.net && packet.Hello? && step.valid {
      var n, p, sid, er := packet.to, packet.from, packet.sid, s.nextEphemeral;
      var s1 := s.(nextEphemeral := er + 1);
      FreshKeeps(s);
      var t := Transcript(p, n, packet.ei, er);
      if Apply(s, step) != s && step.sent {
        forall i | i in s.installs ensures i.transcript.er != er {
          var k :| 0 <= k < |s.installs| && s.installs[k] == i;
          assert InstallAgreed(s, k);
        }
        EstablishKeeps(s1, n, p, sid, t);
        ReplyKeeps(Establish(s1, n, p, sid, t), Reply(n, p, sid, packet.ei, er));
        assert Apply(s, step) == Send(Establish(s1, n, p, sid, t), Reply(n, p, sid, packet.ei, er));
      }
    }
  }

  lemma {:induction false} ReplyKeeps(s: State, r: Packet)
    requires Inv(s) && r.Reply? && r.to < r.from && r.er < s.nextEphemeral
    requires Hello(r.to, r.from, r.sid, r.ei) in s.net
    requires Install(r.from, r.to, r.sid, Transcript(r.to, r.from, r.ei, r.er)) in s.installs
    ensures Inv(Send(s, r))
  {
    var s' := Send(s, r);
    assert forall k: nat | k < |s.installs| :: InstallAgreed(s, k) ==> InstallAgreed(s', k);
  }

  lemma {:induction false} ReceiveReplyKeeps(s: State, step: Step)
    requires Inv(s) && step.ReceiveReply?
    ensures Inv(Apply(s, step))
  {
    var packet := step.packet;
    var s' := Apply(s, step);
    if s' != s {
      var n, p, sid := packet.to, packet.from, packet.sid;
      var peer := PeerOf(s, n, p);
      var ei := peer.attempt.value.handshake.value;
      if ei != packet.ei || !step.valid {
        WeakerPeer(s, n, p, peer.(attempt := Some(Attempt(sid, None))));
      } else {
        assert Hello(n, p, sid, ei) in s.net;
        EstablishKeeps(s, n, p, sid, Transcript(n, p, ei, packet.er));
      }
    }
  }

  lemma {:induction false} IssueCounted(s: State, k: nat)
    requires IssuesCounted(s) && k < |s.counts|
    ensures var next := s.counts[k] + 1;
            IssuesCounted(s.(counts := s.counts[k := next], issues := s.issues + [Issue(k, next)]))
  {
  }

  lemma {:induction false} EncryptKeeps(s: State, n: Node, p: Node)
    requires Inv(s)
    ensures Inv(Apply(s, Encrypt(n, p)))
  {
    var active := PeerOf(s, n, p).active;
    if active.Some? && active.value.install < |s.counts| {
      var s' := Apply(s, Encrypt(n, p));
      IssueCounted(s, active.value.install);
      assert forall k: nat | k < |s.installs| :: InstallAgreed(s, k) ==> InstallAgreed(s', k);
    }
  }

  lemma {:induction false} ReceiveProbeKeeps(s: State, step: Step)
    requires Inv(s) && step.ReceiveProbe?
    ensures Inv(Apply(s, step))
  {
    var packet := step.packet;
    if packet in s.net && packet.Probe? && step.valid {
      var n, p, sid := packet.to, packet.from, packet.sid;
      var answered := Send(s, ProbeResponse(n, p, sid));
      SendKeeps(s, ProbeResponse(n, p, sid));
      if n < p {
        var peer := PeerOf(s, n, p);
        WeakerPeer(answered, n, p, peer.(attempt := Some(Attempt(sid, None))));
        StartInitiatorKeeps(WithPeer(answered, n, p, peer.(attempt := Some(Attempt(sid, None)))), n, p, sid, step.recent, step.sent);
        StartInitiatorKeeps(answered, n, p, sid, step.recent, step.sent);
      }
    }
  }

  lemma {:induction false} StepKeeps(s: State, step: Step)
    requires Inv(s)
    ensures Inv(Apply(s, step))
  {
    match step
    case Connect(n, p, sid) =>
      if Apply(s, step) != s {
        WeakerPeer(s, n, p, Peer(Some(Attempt(sid, None)), None));
        SendKeeps(WithPeer(s, n, p, Peer(Some(Attempt(sid, None)), None)), Probe(n, p, sid));
      }
    case Timeout(n, p) => WeakerPeer(s, n, p, PeerOf(s, n, p).(attempt := None));
    case Invalidate(n, p) => WeakerPeer(s, n, p, Peer(None, None));
    case Rekey(n, p, sid, sent) =>
      WeakerPeer(s, n, p, Peer(Some(Attempt(sid, None)), None));
      WeakerPeer(s, n, p, Peer(None, None));
      if n < p {
        StartInitiatorKeeps(WithPeer(s, n, p, Peer(Some(Attempt(sid, None)), None)), n, p, sid, false, sent);
      }
    case ReceiveProbe(_, _, _, _) => ReceiveProbeKeeps(s, step);
    case ReceiveProbeResponse(packet, _, recent, sent) =>
      if Apply(s, step) != s {
        StartInitiatorKeeps(s, packet.to, packet.from, packet.sid, recent, sent);
      }
    case ReceiveHello(_, _, _) => ReceiveHelloKeeps(s, step);
    case ReceiveReply(_, _) => ReceiveReplyKeeps(s, step);
    case Encrypt(n, p) => EncryptKeeps(s, n, p);
  }

  lemma {:induction false} RunKeeps(run: seq<Step>)
    ensures Inv(Exec(run))
  {
    if run != [] {
      RunKeeps(run[..|run| - 1]);
      StepKeeps(Exec(run[..|run| - 1]), run[|run| - 1]);
    }
  }

  // ---------------------------------------------------------------- results over every run

  /** Agreement: whatever is lost, duplicated or reordered, a session installed by the smaller
      node from a reply was installed before by the larger node, with the same session id and
      keys and opposite cipher directions; and one initiator state yields at most one session. */
  lemma {:induction false} Agreement(run: seq<Step>, k: nat)
    requires k < |Exec(run).installs| && AsInitiator(Exec(run).installs[k])
    ensures var installs := Exec(run).installs;
            && installs[k].node < installs[k].peer
            && (exists j :: 0 <= j < k && Counterpart(installs[j], installs[k]))
            && (forall j | 0 <= j < |installs| && j != k && AsInitiator(installs[j]) ::
                  installs[j].transcript.ei != installs[k].transcript.ei)
  {
    RunKeeps(run);
    var s := Exec(run);
    assert InstallAgreed(s, k);
    var i := s.installs[k];
    var j :| 0 <= j < k && s.installs[j] == Install(i.peer, i.node, i.sid, i.transcript);
    assert Counterpart(s.installs[j], i);
  }

  /** The two ends of one session. */
  predicate Counterpart(a: Install, b: Install) {
    && a.node == b.peer && a.peer == b.node && a.sid == b.sid
    && TxKey(a) == RxKey(b) && RxKey(a) == TxKey(b) && TxKey(a) != TxKey(b)
  }

  /** The 64-bit counter as it enters the nonce. */
  function Nonce(sequence: nat): U64 { sequence % TWO_64 }

  function PairOf(s: State, a: nat): (Key, U64)
    requires a < |s.issues| && s.issues[a].install < |s.installs|
  {
    (TxKey(s.installs[s.issues[a].install]), Nonce(s.issues[a].sequence))
  }

  ghost predicate IssuesWellFormed(s: State) {
    forall a | 0 <= a < |s.issues| :: s.issues[a].install < |s.installs|
  }

  ghost predicate NoPairTwice(s: State)
    requires IssuesWellFormed(s)
  {
    forall a, b | 0 <= a < b < |s.issues| :: PairOf(s, a) != PairOf(s, b)
  }

  /** Two sessions, at whichever ends, never encrypt with the same key. */
  lemma {:induction false} DistinctKeys(s: State, j: nat, k: nat)
    requires Inv(s) && j < |s.installs| && k < |s.installs| && j != k
    ensures TxKey(s.installs[j]) != TxKey(s.installs[k])
  {
    assert InstallAgreed(s, j) && InstallAgreed(s, k);
  }

  lemma {:induction false} PairsDiffer(s: State, a: nat, b: nat)
    requires Inv(s) && a < b < |s.issues| && IssuesWellFormed(s)
    requires s.counts[s.issues[a].install] <= TWO_64
    ensures PairOf(s, a) != PairOf(s, b)
  {
  }

  /** Past 2^64 the counter wraps onto the first nonce. */
  lemma {:induction false} WrapReuses(s: State, k: nat)
    requires Inv(s) && k < |s.counts| && s.counts[k] > TWO_64 && IssuesWellFormed(s)
    ensures !NoPairTwice(s)
  {
    assert Issue(k, 1) in s.issues && Issue(k, TWO_64 + 1) in s.issues;
    var a :| 0 <= a < |s.issues| && s.issues[a] == Issue(k, 1);
    var b :| 0 <= b < |s.issues| && s.issues[b] == Issue(k, TWO_64 + 1);
    assert Nonce(1) == Nonce(TWO_64 + 1);
    assert PairOf(s, a) == PairOf(s, b);
    assert a < b || b < a;
  }

  /** Nonce safety, exactly: in every run, over all sessions of all nodes and every mix of
      traffic, no (key, nonce) pair encrypts twice if and only if no session ever hands out
      more than 2^64 sequence numbers. */
  lemma {:induction false} NonceReuseExactly(run: seq<Step>)
    ensures IssuesWellFormed(Exec(run))
    ensures NoPairTwice(Exec(run)) <==> forall k | 0 <= k < |Exec(run).counts| :: Exec(run).counts[k] <= TWO_64
  {
    RunKeeps(run);
    var s := Exec(run);
    if k: nat :| k < |s.counts| && s.counts[k] > TWO_64 {
      WrapReuses(s, k);
    } else {
      forall a: nat, b: nat | a < b < |s.issues| ensures PairOf(s, a) != PairOf(s, b) {
        PairsDiffer(s, a, b);
      }
    }
  }
}
