/** The coalescing snapshot broadcaster of the coordinator: request handlers set a flag and
    start a loop if none runs; the loop waits, takes the flag, reads membership piece by
    piece, and writes the snapshot to every session's watch. Every lock acquisition and every
    read is a step of its own, so handlers interleave anywhere between them. */
module Broadcast {

  /** A connection, under its own random id. */
  type Conn = nat

  /** How recent each part of a view is: the number of changes made to it so far. */
  datatype View = View(peers: nat, online: nat, config: nat, generation: nat)

  predicate Covers(newer: View, older: View) {
    && older.peers <= newer.peers && older.online <= newer.online
    && older.config <= newer.config && older.generation <= newer.generation
  }

  /** Where the loop is: asleep, or between two reads of one broadcast, with what it has read. */
  datatype Loop =
    | Sleeping
    | ReadOnline
    | ReadPeers(senders: set<Conn>, online: nat)
    | ReadConfig(senders: set<Conn>, online: nat, peers: nat)
    | ReadGeneration(senders: set<Conn>, online: nat, peers: nat, config: nat)
    | Sending(left: set<Conn>, view: View)
    | Failed
    | Checking

  datatype State = State(
    now: View,
    conns: set<Conn>,
    everSeen: set<Conn>,
    pending: bool,
    running: bool,
    loops: seq<Loop>,
    watches: map<Conn, View>,
    published: View,
    /** The newest view and connections for which a broadcast was requested. */
    requested: View,
    requestedConns: set<Conn>)

  datatype Step =
    | ChangePeers
    | ChangeConfig
    | Bump
    | Join(conn: Conn)
    | Leave(conn: Conn)
    | Request
    /** The next step of one live loop; `fails` if its database read errs, `to` the next session. */
    | Advance(which: nat, fails: bool, to: Conn)

  const ZERO := View(0, 0, 0, 0)
  const INIT := State(ZERO, {}, {}, false, false, [], map[], ZERO, ZERO, {})

  /** A loop that returns is gone. */
  function Drop(loops: seq<Loop>, i: nat): seq<Loop>
    requires i < |loops|
  {
    loops[..i] + loops[i + 1..]
  }

  function AdvanceLoop(s: State, i: nat, fails: bool, to: Conn): State
    requires i < |s.loops|
  {
    match s.loops[i]
    case Sleeping =>
      if !s.pending then s.(running := false, loops := Drop(s.loops, i))
      else s.(pending := false, loops := s.loops[i := ReadOnline])
    case ReadOnline => s.(loops := s.loops[i := ReadPeers(s.conns, s.now.online)])
    case ReadPeers(senders, online) =>
      s.(loops := s.loops[i := if fails then Failed else ReadConfig(senders, online, s.now.peers)])
    case ReadConfig(senders, online, peers) =>
      s.(loops := s.loops[i := if fails then Failed else ReadGeneration(senders, online, peers, s.now.config)])
    case ReadGeneration(senders, online, peers, config) =>
      s.(loops := s.loops[i := Sending(senders, View(peers, online, config, s.now.generation))])
    case Sending(left, view) =>
      if left == {} then s.(loops := s.loops[i := Checking], published := view)
      else if to in left then s.(loops := s.loops[i := Sending(left - {to}, view)], watches := s.watches[to := view])
      else s
    case Failed => s.(pending := true, loops := s.loops[i := Checking])
    case Checking =>
      if s.pending then s.(loops := s.loops[i := Sleeping])
      else s.(running := false, loops := Drop(s.loops, i))
  }

  function Apply(s: State, step: Step): State {
    match step
    case ChangePeers => s.(now := s.now.(peers := s.now.peers + 1))
    case ChangeConfig => s.(now := s.now.(config := s.now.config + 1))
    case Bump => s.(now := s.now.(generation := s.now.generation + 1))
    case Join(conn) =>
      if conn in s.everSeen then s
      else s.(conns := s.conns + {conn}, everSeen := s.everSeen + {conn}, now := s.now.(online := s.now.online + 1))
    case Leave(conn) =>
      if conn !in s.conns then s
      else s.(conns := s.conns - {conn}, now := s.now.(online := s.now.online + 1))
    case Request =>
      var s' := s.(pending := true, requested := s.now, requestedConns := s.conns);
      if s.running then s' else s'.(running := true, loops := s.loops + [Sleeping])
    case Advance(i, fails, to) => if i < |s.loops| then AdvanceLoop(s, i, fails, to) else s
  }

  function Exec(run: seq<Step>): State {
    if run == [] then INIT else Apply(Exec(run[..|run| - 1]), run[|run| - 1])
  }

  // ---------------------------------------------------------------- invariant

  /** At most one loop is live, exactly while `running`; a pending request has one. */
  predicate OneLoop(s: State) {
    && |s.loops| == (if s.running then 1 else 0)
    && (s.pending ==> s.running)
    && (s.running && s.loops[0] == Sleeping ==> s.pending)
  }

  /** Every session asked for, and still there, has a view that covers the request or is about
      to be written one. */
  ghost predicate Served(s: State, left: set<Conn>) {
    forall c | c in s.requestedConns && c in s.conns && c !in left :: c in s.watches && Covers(s.watches[c], s.requested)
  }

  /** The senders a broadcast has taken include every session asked for and still there. */
  ghost predicate Reaches(s: State, senders: set<Conn>) {
    forall c | c in s.requestedConns && c in s.conns :: c in senders
  }

  ghost predicate Done(s: State) {
    Covers(s.published, s.requested) && Served(s, {})
  }

  /** With no request pending, what a loop has read so far was read after the last request. */
  ghost predicate Progress(s: State, l: Loop) {
    match l
    case ReadPeers(senders, online) => Reaches(s, senders) && s.requested.online <= online
    case ReadConfig(senders, online, peers) =>
      Reaches(s, senders) && s.requested.online <= online && s.requested.peers <= peers
    case ReadGeneration(senders, online, peers, config) =>
      && Reaches(s, senders)
      && s.requested.online <= online && s.requested.peers <= peers && s.requested.config <= config
    case Sending(left, view) => Covers(view, s.requested) && Served(s, left)
    case Checking => Done(s)
    case _ => true
  }

  ghost predicate Responsive(s: State)
    requires OneLoop(s)
  {
    s.pending || if s.running then Progress(s, s.loops[0]) else Done(s)
  }

  /** The view a broadcast would have written at best: what it has read, and the rest as it is now. */
  function Reading(s: State, l: Loop): View {
    match l
    case ReadPeers(_, online) => s.now.(online := online)
    case ReadConfig(_, online, peers) => s.now.(online := online, peers := peers)
    case ReadGeneration(_, online, peers, config) => s.now.(online := online, peers := peers, config := config)
    case Sending(_, view) => view
    case _ => s.now
  }

  /** Nothing written is newer than `bound`. */
  ghost predicate Written(s: State, bound: View) {
    Covers(bound, s.published) && forall c | c in s.watches :: Covers(bound, s.watches[c])
  }

  /** What the broadcast under way will write is no older than anything written. */
  ghost predicate Ordered(s: State)
    requires OneLoop(s)
  {
    var bound := if s.running then Reading(s, s.loops[0]) else s.now;
    Covers(s.now, bound) && Written(s, bound)
  }

  ghost predicate Inv(s: State) {
    OneLoop(s) && Responsive(s) && Ordered(s) && Covers(s.now, s.requested) && s.conns <= s.everSeen && s.requestedConns <= s.everSeen
  }

  // Handlers move `now` and the connections; the loop's reads stay behind them.

  lemma {:induction false} HandlerKeeps(s: State, step: Step)
    requires Inv(s) && !step.Advance? && !step.Request?
    ensures Inv(Apply(s, step))
  {
    var s' := Apply(s, step);
    assert Covers(s'.now, s.now) && s'.watches == s.watches && s'.published == s.published && s'.loops == s.loops;
    assert forall c | c in s'.requestedConns && c in s'.conns :: c in s.conns;
    HandlerKeepsResponsive(s, s');
    HandlerKeepsOrdered(s, s');
  }

  ghost predicate Handled(s: State, s': State) {
    && Covers(s'.now, s.now) && s' == s.(now := s'.now, conns := s'.conns, everSeen := s'.everSeen)
    && forall c | c in s'.requestedConns && c in s'.conns :: c in s.conns
  }

  lemma {:induction false} HandlerKeepsResponsive(s: State, s': State)
    requires OneLoop(s) && Responsive(s) && Handled(s, s')
    ensures OneLoop(s') && Responsive(s')
  {
  }

  lemma {:induction false} HandlerKeepsOrdered(s: State, s': State)
    requires OneLoop(s) && Ordered(s) && Handled(s, s')
    ensures OneLoop(s') && Ordered(s')
  {
  }

  lemma {:induction false} RequestKeeps(s: State)
    requires Inv(s)
    ensures Inv(Apply(s, Request))
  {
  }

  lemma {:induction false} AdvanceKeeps(s: State, fails: bool, to: Conn)
    requires Inv(s) && s.running
    ensures Inv(AdvanceLoop(s, 0, fails, to))
  {
    var s' := AdvanceLoop(s, 0, fails, to);
    assert Drop(s.loops, 0) == [];
    AdvanceKeepsResponsive(s, fails, to);
    AdvanceKeepsOrdered(s, fails, to);
  }

  lemma {:induction false} AdvanceKeepsResponsive(s: State, fails: bool, to: Conn)
    requires Inv(s) && s.running
    ensures OneLoop(AdvanceLoop(s, 0, fails, to)) && Responsive(AdvanceLoop(s, 0, fails, to))
  {
  }

  lemma {:induction false} AdvanceKeepsOrdered(s: State, fails: bool, to: Conn)
    requires Inv(s) && s.running
    requires OneLoop(AdvanceLoop(s, 0, fails, to))
    ensures Ordered(AdvanceLoop(s, 0, fails, to))
  {
    var s' := AdvanceLoop(s, 0, fails, to);
    var bound := Reading(s, s.loops[0]);
    var bound' := if s'.running then Reading(s', s'.loops[0]) else s'.now;
    AdvanceWrites(s, fails, to);
    assert Covers(bound', bound) && Covers(s'.now, bound');
    assert Written(s', bound');
  }

  lemma {:induction false} AdvanceWrites(s: State, fails: bool, to: Conn)
    requires OneLoop(s) && s.running && Written(s, Reading(s, s.loops[0]))
    ensures Written(AdvanceLoop(s, 0, fails, to), Reading(s, s.loops[0]))
  {
  }

  lemma {:induction false} RunKeeps(run: seq<Step>)
    ensures Inv(Exec(run))
  {
    if run != [] {
      var s, step := Exec(run[..|run| - 1]), run[|run| - 1];
      RunKeeps(run[..|run| - 1]);
      match step
      case Advance(i, fails, to) => if i < |s.loops| { AdvanceKeeps(s, fails, to); }
      case Request => RequestKeeps(s);
      case _ => HandlerKeeps(s, step);
    }
  }

  // ---------------------------------------------------------------- what is promised

  /** At every moment of every run: one loop at most is live, `running` says whether, and a
      pending request never waits without one. */
  lemma {:induction false} NeverTwoLoops(run: seq<Step>)
    ensures var s := Exec(run); |s.loops| == (if s.running then 1 else 0) && (s.pending ==> s.running)
  {
    RunKeeps(run);
  }

  /** What a step never takes back: versions grow, ids are not reused, and a session's view is
      only ever replaced by one at least as new in every part. */
  ghost predicate Forward(s: State, s': State) {
    && Covers(s'.now, s.now) && s.everSeen <= s'.everSeen
    && forall c | c in s.watches :: c in s'.watches && Covers(s'.watches[c], s.watches[c])
  }

  lemma {:induction false} StepForward(s: State, step: Step)
    requires Inv(s)
    ensures Forward(s, Apply(s, step))
  {
    if step.Advance? && step.which < |s.loops| {
      assert Written(s, Reading(s, s.loops[0]));
    }
  }

  /** Over any stretch of any run, no session's view goes backwards in any part. */
  lemma {:induction false} ViewsNeverGoBack(run: seq<Step>, k: nat)
    requires k <= |run|
    ensures Forward(Exec(run[..k]), Exec(run))
    decreases |run|
  {
    if k < |run| {
      var init := run[..|run| - 1];
      RunKeeps(init);
      assert init[..k] == run[..k];
      ViewsNeverGoBack(init, k);
      StepForward(Exec(init), run[|run| - 1]);
    } else {
      assert run[..k] == run;
    }
  }

  /** The request remembered is at least as new as one made in state `at`. */
  ghost predicate Remembers(s: State, at: State) {
    && Covers(s.requested, at.now)
    && forall c | c in at.conns && c in s.conns :: c in s.requestedConns
  }

  lemma {:induction false} StepRemembers(s: State, step: Step, at: State)
    requires Covers(s.now, at.now) && at.conns <= s.everSeen
    requires step.Request? || Remembers(s, at)
    ensures Remembers(Apply(s, step), at)
  {
  }

  lemma {:induction false} RequestsRemembered(run: seq<Step>, k: nat)
    requires k < |run| && run[k].Request?
    ensures Remembers(Exec(run), Exec(run[..k]))
    decreases |run|
  {
    var init := run[..|run| - 1];
    assert init[..k] == run[..k];
    if k < |run| - 1 {
      RequestsRemembered(init, k);
    }
    ViewsNeverGoBack(init, k);
    RunKeeps(run[..k]);
    StepRemembers(Exec(init), run[|run| - 1], Exec(run[..k]));
  }

  /** Whatever a request saw before it asked is in the view published once the loop is idle, and
      in the view of every session that was online then and still is. */
  lemma {:induction false} IdleMeansServed(run: seq<Step>, k: nat)
    requires k < |run| && run[k].Request? && !Exec(run).running
    ensures Covers(Exec(run).published, Exec(run[..k]).now)
    ensures forall c | c in Exec(run[..k]).conns && c in Exec(run).conns ::
      c in Exec(run).watches && Covers(Exec(run).watches[c], Exec(run[..k]).now)
  {
    var s := Exec(run);
    RunKeeps(run);
    RequestsRemembered(run, k);
    assert Done(s);
    forall c | c in Exec(run[..k]).conns && c in s.conns
      ensures c in s.watches && Covers(s.watches[c], Exec(run[..k]).now)
    {
      assert c in s.requestedConns;
    }
  }

  // The loop comes to rest by itself once its reads succeed.

  predicate LoopOnly(steps: seq<Step>) {
    forall i | 0 <= i < |steps| :: steps[i].Advance? && !steps[i].fails
  }

  function Again(s: State): nat {
    if s.pending || (|s.loops| == 1 && s.loops[0].Failed?) then 1 else 0
  }

  function Stage(l: Loop): nat {
    match l
    case ReadOnline => 7
    case ReadPeers(_, _) => 6
    case ReadConfig(_, _, _) => 5
    case ReadGeneration(_, _, _, _) => 4
    case Sending(_, _) => 3
    case Failed => 2
    case Checking => 1
    case Sleeping => 0
  }

  function Left(s: State): nat {
    if |s.loops| == 1 && s.loops[0].Sending? then |s.loops[0].left| else 0
  }

  function At(s: State): nat {
    if |s.loops| == 1 then Stage(s.loops[0]) else 0
  }

  /** The connection the loop can serve next. */
  ghost predicate Ready(l: Loop, to: Conn) {
    l.Sending? && l.left != {} ==> to in l.left
  }

  lemma {:induction false} StepProgresses(s: State, to: Conn)
    requires OneLoop(s) && s.running && Ready(s.loops[0], to)
    ensures var s' := AdvanceLoop(s, 0, false, to);
      s'.running ==>
        || Again(s') < Again(s)
        || (Again(s') == Again(s) && At(s') < At(s))
        || (Again(s') == Again(s) && At(s') == At(s) && Left(s') < Left(s))
  {
  }

  lemma {:induction false} ComesToRest(run: seq<Step>) returns (steps: seq<Step>)
    ensures LoopOnly(steps) && !Exec(run + steps).running
    decreases Exec(run).running, Again(Exec(run)), At(Exec(run)), Left(Exec(run))
  {
    var s := Exec(run);
    RunKeeps(run);
    if !s.running {
      assert run + [] == run;
      return [];
    }
    var l := s.loops[0];
    var to: Conn := 0;
    if l.Sending? && l.left != {} { to :| to in l.left; }
    var step := Advance(0, false, to);
    assert (run + [step])[..|run|] == run;
    assert Exec(run + [step]) == AdvanceLoop(s, 0, false, to);
    StepProgresses(s, to);
    var rest := ComesToRest(run + [step]);
    assert run + [step] + rest == run + ([step] + rest);
    return [step] + rest;
  }

  /** After any run, however its reads failed, the loop's own steps reach a state where every
      request ever made is served to every session still there. */
  lemma {:induction false} EveryRequestCanBeServed(run: seq<Step>) returns (steps: seq<Step>)
    ensures LoopOnly(steps)
    ensures forall k, c | 0 <= k < |run| && run[k].Request? && c in Exec(run[..k]).conns && c in Exec(run + steps).conns ::
      c in Exec(run + steps).watches && Covers(Exec(run + steps).watches[c], Exec(run[..k]).now)
  {
    steps := ComesToRest(run);
    forall k, c | 0 <= k < |run| && run[k].Request? && c in Exec(run[..k]).conns && c in Exec(run + steps).conns
      ensures c in Exec(run + steps).watches && Covers(Exec(run + steps).watches[c], Exec(run[..k]).now)
    {
      assert (run + steps)[..k] == run[..k];
      IdleMeansServed(run + steps, k);
    }
  }
}
