/** Moving a session to a new remote address: the path follows a source only after three
    data packets in a row from it, each within two seconds of the one before. */
module PathMigration {
  import opened Base
  import opened ReplayWindow

  const CONFIRMATIONS := 3
  const WINDOW_MS := 2000

  /** A socket address; only equality matters. */
  type Addr = nat

  datatype Candidate = Candidate(path: Addr, confirmations: nat, lastSeen: nat)

  datatype Route = Route(path: Addr, pending: Option<Candidate>)

  function SaturatingSucc(n: nat): nat { if n < 255 then n + 1 else 255 }

  /** One accepted data packet from `source`; true when the path moves to it. */
  function Observe(r: Route, source: Addr, now: nat): (Route, bool) {
    if source == r.path then (r, false)
    else
      var c := if r.pending.Some? && r.pending.value.path == source && Elapsed(now, r.pending.value.lastSeen) <= WINDOW_MS
               then Candidate(source, SaturatingSucc(r.pending.value.confirmations), now)
               else Candidate(source, 1, now);
      if c.confirmations < CONFIRMATIONS then (Route(r.path, Some(c)), false) else (Route(source, None), true)
  }

  /** The two fields of the session the confirmer updates in place. */
  class ActivePath {
    var path: Addr
    var pending: Option<Candidate>

    constructor (path: Addr)
      ensures Route(this.path, pending) == Route(path, None)
    {
      this.path := path;
      pending := None;
    }

    method ConfirmPathMigration(source: Addr, now: nat) returns (confirmed: bool)
      modifies this`pending
      ensures confirmed <==> Observe(old(Route(path, pending)), source, now).1
      ensures pending == Observe(old(Route(path, pending)), source, now).0.pending
    {
      if source == path {
        return false;
      }
      var confirmations;
      if pending.Some? && pending.value.path == source && Elapsed(now, pending.value.lastSeen) <= WINDOW_MS {
        confirmations := SaturatingSucc(pending.value.confirmations);
        pending := Some(Candidate(source, confirmations, now));
      } else {
        pending := Some(Candidate(source, 1, now));
        confirmations := 1;
      }
      if confirmations < CONFIRMATIONS {
        return false;
      }
      pending := None;
      confirmed := true;
    }

    method ObserveDataSource(source: Addr, now: nat) returns (moved: bool)
      modifies this
      ensures (Route(path, pending), moved) == Observe(old(Route(path, pending)), source, now)
    {
      moved := ConfirmPathMigration(source, now);
      if moved {
        path := source;
      }
    }
  }

  // ---------------------------------------------------------------- the history it stands for

  /** A decrypted packet of the session: data, or one of the control messages (keepalives, pings,
      MTU probes and their answers), which share the replay window but say nothing of the path. */
  datatype Packet = Packet(sequence: U64, source: Addr, now: nat, isData: bool)

  /** The session's view with nothing forgotten: its path, and every accepted data packet since the
      last move that came from elsewhere. */
  datatype History = History(path: Addr, strays: seq<Packet>)

  predicate Follows(earlier: Packet, later: Packet) {
    earlier.source == later.source && Elapsed(later.now, earlier.now) <= WINDOW_MS
  }

  /** The last three strays come from one source with gaps of at most two seconds. */
  predicate Convincing(strays: seq<Packet>) {
    var n := |strays|;
    n >= 3 && Follows(strays[n - 3], strays[n - 2]) && Follows(strays[n - 2], strays[n - 1])
  }

  function Extend(h: History, p: Packet): History {
    if p.source == h.path then h
    else if Convincing(h.strays + [p]) then History(p.source, [])
    else History(h.path, h.strays + [p])
  }

  function Recall(path: Addr, packets: seq<Packet>): History {
    if packets == [] then History(path, [])
    else Extend(Recall(path, packets[..|packets| - 1]), packets[|packets| - 1])
  }

  /** How many of the last strays in a row confirm each other. */
  function Streak(strays: seq<Packet>): nat {
    var n := |strays|;
    if n == 0 then 0
    else if n >= 2 && Follows(strays[n - 2], strays[n - 1]) then Streak(strays[..n - 1]) + 1
    else 1
  }

  /** The counter kept by the code stands for the history. */
  ghost predicate Stands(r: Route, h: History) {
    && r.path == h.path
    && Streak(h.strays) < CONFIRMATIONS
    && (h.strays == [] ==> r.pending.None?)
    && (h.strays != [] ==>
          var last := h.strays[|h.strays| - 1];
          r.pending == Some(Candidate(last.source, Streak(h.strays), last.now)))
  }

  lemma {:induction false} StreakOfThree(strays: seq<Packet>, p: Packet)
    requires Streak(strays) < CONFIRMATIONS
    ensures Streak(strays + [p]) >= CONFIRMATIONS <==> Convincing(strays + [p])
  {
  }

  lemma {:induction false} ObserveStands(r: Route, h: History, p: Packet)
    requires Stands(r, h)
    ensures Stands(Observe(r, p.source, p.now).0, Extend(h, p))
    ensures Observe(r, p.source, p.now).1 <==> p.source != h.path && Convincing(h.strays + [p])
  {
    if p.source != h.path {
      var n := |h.strays|;
      StreakOfThree(h.strays, p);
      assert (h.strays + [p])[..n] == h.strays;
    }
  }

  // ---------------------------------------------------------------- behind the replay window

  function Sequences(arrivals: seq<Packet>): (run: seq<U64>)
    ensures |run| == |arrivals|
    ensures forall i | 0 <= i < |run| :: run[i] == arrivals[i].sequence
  {
    seq(|arrivals|, i requires 0 <= i < |arrivals| => arrivals[i].sequence)
  }

  /** The data arrivals that the replay window, which sees every arrival, lets through. */
  function Kept(arrivals: seq<Packet>): seq<Packet> {
    if arrivals == [] then []
    else
      var last := |arrivals| - 1;
      Kept(arrivals[..last])
      + (if arrivals[last].isData && Verdict(Sequences(arrivals), last) then [arrivals[last]] else [])
  }

  datatype Session = Session(accepted: set<U64>, route: Route)

  /** One packet as far as replay and path go; true when the path moves. */
  function Receive(s: Session, p: Packet): (Session, bool) {
    if !Acceptable(s.accepted, p.sequence) then (s, false)
    else if !p.isData then (s.(accepted := s.accepted + {p.sequence}), false)
    else
      var (route, moved) := Observe(s.route, p.source, p.now);
      (Session(s.accepted + {p.sequence}, route), moved)
  }

  function ReceiveAll(path: Addr, arrivals: seq<Packet>): Session {
    if arrivals == [] then Session({}, Route(path, None))
    else Receive(ReceiveAll(path, arrivals[..|arrivals| - 1]), arrivals[|arrivals| - 1]).0
  }

  ghost predicate DistinctSequences(packets: seq<Packet>) {
    forall i, j | 0 <= i < j < |packets| :: packets[i].sequence != packets[j].sequence
  }

  ghost predicate CountedOnce(strays: seq<Packet>, accepted: set<U64>) {
    && DistinctSequences(strays)
    && forall i | 0 <= i < |strays| :: strays[i].sequence in accepted
  }

  lemma {:induction false} ExtendCountsOnce(h: History, p: Packet, accepted: set<U64>)
    requires CountedOnce(h.strays, accepted) && p.sequence !in accepted
    ensures CountedOnce(Extend(h, p).strays, accepted + {p.sequence})
    ensures DistinctSequences(h.strays + [p])
  {
  }

  lemma {:induction false} ReceiveAllStands(path: Addr, arrivals: seq<Packet>)
    ensures var s := ReceiveAll(path, arrivals);
            && s.accepted == AcceptedBy(Sequences(arrivals))
            && Stands(s.route, Recall(path, Kept(arrivals)))
    ensures CountedOnce(Recall(path, Kept(arrivals)).strays, AcceptedBy(Sequences(arrivals)))
  {
    if arrivals != [] {
      var last := |arrivals| - 1;
      var before, p := arrivals[..last], arrivals[last];
      ReceiveAllStands(path, before);
      assert Sequences(arrivals)[..last] == Sequences(before);
      var s := ReceiveAll(path, before);
      if p.isData && Acceptable(s.accepted, p.sequence) {
        ObserveStands(s.route, Recall(path, Kept(before)), p);
        ExtendCountsOnce(Recall(path, Kept(before)), p, s.accepted);
        assert (Kept(before) + [p])[..|Kept(before)|] == Kept(before);
      } else {
        assert Kept(arrivals) == Kept(before);
      }
    }
  }

  /** For every run of data and control arrivals, replayed and reordered ones included: the next
      packet `p` moves the path exactly when it is data, the replay window accepts it, it comes from
      elsewhere, and it is the third stray in a row from its source with gaps of at most two
      seconds; all packets counted carry pairwise distinct sequence numbers. */
  lemma {:induction false} MigrationMatchesHistory(path: Addr, arrivals: seq<Packet>, p: Packet)
    ensures var s, h := ReceiveAll(path, arrivals), Recall(path, Kept(arrivals));
            && s.route.path == h.path
            && (Receive(s, p).1 <==>
                  && p.isData && Verdict(Sequences(arrivals + [p]), |arrivals|)
                  && p.source != h.path
                  && Convincing(h.strays + [p]))
            && (Receive(s, p).1 ==> Receive(s, p).0.route == Route(p.source, None))
            && (!Receive(s, p).1 ==> Receive(s, p).0.route.path == s.route.path)
            && (Receive(s, p).1 ==> DistinctSequences(h.strays + [p]))
  {
    ReceiveAllStands(path, arrivals);
    assert Sequences(arrivals + [p])[..|arrivals|] == Sequences(arrivals);
    var s := ReceiveAll(path, arrivals);
    ObserveStands(s.route, Recall(path, Kept(arrivals)), p);
    if Acceptable(s.accepted, p.sequence) {
      ExtendCountsOnce(Recall(path, Kept(arrivals)), p, s.accepted);
    }
  }
}
