/** The per-session path MTU search: probe upwards in steps of 64, fall back to bisection
    after three unanswered sends, clamp to the ceiling the peer advertises. */
module PathMtu {
  import opened Base

  const PROBE_TIMEOUT := 500
  const PROBE_STEP := 64
  const MAX_FAILURES := 3
  const MIN_GAIN := 8

  /** A 16-byte probe nonce; only equality matters. */
  type Nonce = nat

  datatype Pending = Pending(target: nat, nonce: Nonce, sentAt: nat, failures: nat)

  datatype Search = Search(confirmed: nat, upper: nat, next: Option<nat>, pending: Option<Pending>)

  function Min(a: nat, b: nat): nat { if a < b then a else b }

  function Max(a: nat, b: nat): nat { if a < b then b else a }

  // ---------------------------------------------------------------- one step

  function New(base: nat, maximum: nat): Search {
    var low := Min(base, maximum);
    Search(low, maximum, if low < maximum then Some(Min(low + PROBE_STEP, maximum)) else None, None)
  }

  /** The bisection step. The source also tests `midpoint > confirmed`, which the ensures
      shows can never fail once the gain exceeds 8. */
  function NextProbe(confirmed: nat, upper: nat): (probe: Option<nat>)
    ensures probe.Some? <==> confirmed + MIN_GAIN < upper
    ensures probe.Some? ==> confirmed < probe.value < upper
  {
    if upper <= confirmed + MIN_GAIN then None
    else Some(confirmed + (upper - confirmed) / 2)
  }

  predicate Waiting(m: Search, now: nat) {
    m.pending.Some? && Elapsed(now, m.pending.value.sentAt) < PROBE_TIMEOUT
  }

  /** The third send of the pending target timed out. */
  predicate GivesUp(m: Search, now: nat) {
    m.pending.Some? && !Waiting(m, now) && m.pending.value.failures + 1 >= MAX_FAILURES
  }

  function GiveUp(m: Search): Search
    requires m.pending.Some?
  {
    var t := m.pending.value.target;
    var upper := Min(m.upper, if t == 0 then 0 else t - 1);
    Search(m.confirmed, upper, NextProbe(m.confirmed, upper), None)
  }

  function SendNext(m: Search, now: nat, fresh_: Nonce): (Search, Option<(nat, Nonce)>) {
    match m.next
    case None => (m, None)
    case Some(target) =>
      (m.(next := None, pending := Some(Pending(target, fresh_, now, 0))), Some((target, fresh_)))
  }

  /** A probe put on the wire is always the one left pending, stamped with this poll's time:
      its answer will be recognised, and it is not sent again within the timeout. */
  function Poll(m: Search, now: nat, fresh_: Nonce): (r: (Search, Option<(nat, Nonce)>))
    ensures r.1.Some? ==>
              && r.0.pending.Some?
              && r.1.value == (r.0.pending.value.target, r.0.pending.value.nonce)
              && r.0.pending.value.sentAt == now
    ensures r.1.None? ==> Waiting(m, now) || r.0.pending.None?
    ensures r.0.confirmed == m.confirmed
  {
    if Waiting(m, now) then (m, None)
    else if GivesUp(m, now) then SendNext(GiveUp(m), now, fresh_)
    else if m.pending.Some? then
      var p := m.pending.value;
      (m.(pending := Some(p.(failures := p.failures + 1, sentAt := now))), Some((p.target, p.nonce)))
    else SendNext(m, now, fresh_)
  }

  predicate Answers(m: Search, nonce: Nonce) {
    m.pending.Some? && m.pending.value.nonce == nonce
  }

  function Acknowledge(m: Search, nonce: Nonce, peerMax: nat): Search {
    if !Answers(m, nonce) then m
    else
      var t := m.pending.value.target;
      if peerMax < t then
        var upper := Min(m.upper, peerMax);
        Search(Min(peerMax, upper), upper, None, None)
      else
        var confirmed := Max(m.confirmed, t);
        Search(confirmed, m.upper,
               if confirmed < m.upper then Some(Min(confirmed + PROBE_STEP, m.upper)) else None, None)
  }

  /** The state as the session holds it, updated in place. */
  class PathMtuState {
    var confirmed: nat
    var upper: nat
    var next: Option<nat>
    var pending: Option<Pending>

    ghost function View(): Search
      reads this
    {
      Search(confirmed, upper, next, pending)
    }

    constructor (base: nat, maximum: nat)
      ensures View() == New(base, maximum)
    {
      var low := if base < maximum then base else maximum;
      confirmed := low;
      upper := maximum;
      next := if low < maximum then Some(Min(low + PROBE_STEP, maximum)) else None;
      pending := None;
    }

    method Reset(base: nat, maximum: nat) returns (changed: bool)
      modifies this
      ensures View() == New(base, maximum)
      ensures changed <==> confirmed != old(confirmed)
    {
      var previous := confirmed;
      confirmed := Min(base, maximum);
      upper := maximum;
      next := if confirmed < maximum then Some(Min(confirmed + PROBE_STEP, maximum)) else None;
      pending := None;
      changed := confirmed != previous;
    }

    method PollProbe(now: nat, fresh_: Nonce) returns (probe: Option<(nat, Nonce)>)
      modifies this
      ensures (View(), probe) == Poll(old(View()), now, fresh_)
    {
      if pending.Some? {
        var p := pending.value;
        if Elapsed(now, p.sentAt) < PROBE_TIMEOUT {
          return None;
        }
        if p.failures + 1 < MAX_FAILURES {
          pending := Some(p.(failures := p.failures + 1, sentAt := now));
          return Some((p.target, p.nonce));
        }
        upper := Min(upper, if p.target == 0 then 0 else p.target - 1);
        pending := None;
        next := NextProbe(confirmed, upper);
      }
      if next.None? {
        return None;
      }
      var target := next.value;
      next := None;
      pending := Some(Pending(target, fresh_, now, 0));
      probe := Some((target, fresh_));
    }

    method Acknowledged(nonce: Nonce, peerMax: nat) returns (changed: Option<nat>)
      modifies this
      ensures View() == Acknowledge(old(View()), nonce, peerMax)
      ensures changed == if confirmed != old(confirmed) then Some(confirmed) else None
    {
      if pending.None? || pending.value.nonce != nonce {
        return None;
      }
      var p := pending.value;
      var previous := confirmed;
      pending := None;
      if peerMax < p.target {
        upper := Min(upper, peerMax);
        confirmed := Min(peerMax, upper);
        next := None;
      } else {
        confirmed := Max(confirmed, p.target);
        next := if confirmed < upper then Some(Min(confirmed + PROBE_STEP, upper)) else None;
      }
      changed := if confirmed != previous then Some(confirmed) else None;
    }
  }

  // ---------------------------------------------------------------- runs

  /** What reaches the search between two resets: timer polls, and acknowledgements of any
      nonce and any advertised ceiling, in any order and number. */
  datatype Event = PollEvent(now: nat, fresh_: Nonce) | AckEvent(nonce: Nonce, peerMax: nat)

  function Step(m: Search, e: Event): Search {
    match e
    case PollEvent(now, fresh_) => Poll(m, now, fresh_).0
    case AckEvent(nonce, peerMax) => Acknowledge(m, nonce, peerMax)
  }

  /** The probe target the event put on the wire. */
  function SentBy(m: Search, e: Event): seq<nat> {
    if e.PollEvent? && Poll(m, e.now, e.fresh_).1.Some? then [Poll(m, e.now, e.fresh_).1.value.0] else []
  }

  function Exec(m: Search, events: seq<Event>): Search {
    if events == [] then m
    else Step(Exec(m, events[..|events| - 1]), events[|events| - 1])
  }

  function Sent(m: Search, events: seq<Event>): seq<nat> {
    if events == [] then []
    else
      var before := events[..|events| - 1];
      Sent(m, before) + SentBy(Exec(m, before), events[|events| - 1])
  }

  predicate Idle(m: Search) {
    m.next.None? && m.pending.None?
  }

  /** Targets lie in (confirmed, upper], and at most one of them is open. */
  predicate Shape(m: Search) {
    && m.confirmed <= m.upper
    && (m.next.Some? ==> m.confirmed < m.next.value <= m.upper && m.pending.None?)
    && (m.pending.Some? ==> m.confirmed < m.pending.value.target <= m.upper && m.pending.value.failures < MAX_FAILURES)
  }

  lemma {:induction false} StepKeepsShape(m: Search, e: Event)
    requires Shape(m)
    ensures Shape(Step(m, e))
    ensures Step(m, e).upper <= m.upper
  {
  }

  /** How often a target was sent. */
  ghost function Times(sent: seq<nat>, t: nat): nat { multiset(sent)[t] }

  /** How often a target may still have been sent, seen from the current state. */
  ghost predicate Ledger(m: Search, sent: seq<nat>, t: nat) {
    var n := Times(sent, t);
    && n <= MAX_FAILURES
    && (m.confirmed < t <= m.upper && !(m.pending.Some? && m.pending.value.target == t) ==> n == 0)
    && (m.pending.Some? && m.pending.value.target == t ==> n == m.pending.value.failures + 1)
  }

  lemma {:induction false} StepKeepsLedger(m: Search, e: Event, sent: seq<nat>, t: nat)
    requires Shape(m) && Ledger(m, sent, t)
    ensures Ledger(Step(m, e), sent + SentBy(m, e), t)
  {
    var now := SentBy(m, e);
    assert multiset(sent + now)[t] == multiset(sent)[t] + multiset(now)[t];
    if now != [] {
      assert now == [now[0]];
      assert multiset(now)[t] == if t == now[0] then 1 else 0;
    }
  }

  /** Three sends for every unit of the open interval, less those already spent on the
      pending target. */
  function Budget(m: Search): int {
    MAX_FAILURES * (m.upper - m.confirmed) - (if m.pending.Some? then m.pending.value.failures + 1 else 0)
  }

  lemma {:induction false} StepSpendsBudget(m: Search, e: Event)
    requires Shape(m)
    ensures Budget(Step(m, e)) + |SentBy(m, e)| <= Budget(m)
  {
  }

  /** Whatever is lost, duplicated or late: targets stay in (confirmed, upper] and never two
      at once, no target is sent more than three times, and the whole search sends at most
      3 * (maximum - base) probes. */
  lemma {:induction false} SearchTerminates(base: nat, maximum: nat, events: seq<Event>)
    ensures var m := Exec(New(base, maximum), events);
            var sent := Sent(New(base, maximum), events);
            && Shape(m)
            && m.upper <= maximum
            && (forall t: nat :: Ledger(m, sent, t))
            && (forall t: nat :: Times(sent, t) <= MAX_FAILURES)
            && |sent| + Budget(m) <= MAX_FAILURES * (maximum - Min(base, maximum))
            && |sent| <= MAX_FAILURES * (maximum - Min(base, maximum))
  {
    var start := New(base, maximum);
    if events != [] {
      var before, e := events[..|events| - 1], events[|events| - 1];
      SearchTerminates(base, maximum, before);
      var m := Exec(start, before);
      StepKeepsShape(m, e);
      StepSpendsBudget(m, e);
      forall t: nat ensures Ledger(Exec(start, events), Sent(start, events), t) {
        StepKeepsLedger(m, e, Sent(start, before), t);
      }
    }
    var m, sent := Exec(start, events), Sent(start, events);
    forall t: nat ensures Times(sent, t) <= MAX_FAILURES {
      assert Ledger(m, sent, t);
    }
  }

  /** Every poll of the run finds no probe still within its timeout. */
  predicate AllDue(m: Search, events: seq<Event>) {
    forall i: nat | i < |events| ::
      events[i].PollEvent? ==> !Waiting(Exec(m, events[..i]), events[i].now)
  }

  function Polls(events: seq<Event>): nat {
    if events == [] then 0
    else Polls(events[..|events| - 1]) + (if events[|events| - 1].PollEvent? then 1 else 0)
  }

  lemma {:induction false} EveryDuePollSends(m: Search, events: seq<Event>)
    requires AllDue(m, events)
    ensures Idle(Exec(m, events)) || |Sent(m, events)| == Polls(events)
  {
    if events != [] {
      var before, e := events[..|events| - 1], events[|events| - 1];
      forall i: nat | i < |before| && before[i].PollEvent?
        ensures !Waiting(Exec(m, before[..i]), before[i].now)
      {
        assert before[..i] == events[..i] && before[i] == events[i];
      }
      EveryDuePollSends(m, before);
      assert events[..|events| - 1] == before;
    }
  }

  /** The search stops: after more than 3 * (maximum - base) due polls nothing is pending or
      scheduled, whichever acknowledgements arrived in between. */
  lemma {:induction false} SearchStops(base: nat, maximum: nat, events: seq<Event>)
    requires AllDue(New(base, maximum), events)
    requires Polls(events) > MAX_FAILURES * (maximum - Min(base, maximum))
    ensures Idle(Exec(New(base, maximum), events))
  {
    SearchTerminates(base, maximum, events);
    EveryDuePollSends(New(base, maximum), events);
  }

  // ---------------------------------------------------------------- accuracy

  /** A path that carries exactly the probes up to `path`, towards a peer that advertises
      `ceiling`: only carried probes are answered, only the others are given up. */
  predicate Genuine(m: Search, e: Event, path: nat, ceiling: nat) {
    match e
    case PollEvent(now, _) => GivesUp(m, now) ==> m.pending.value.target > path
    case AckEvent(nonce, peerMax) =>
      Answers(m, nonce) ==> peerMax == ceiling && m.pending.value.target <= path
  }

  predicate GenuineRun(m: Search, events: seq<Event>, path: nat, ceiling: nat) {
    forall i: nat | i < |events| :: Genuine(Exec(m, events[..i]), events[i], path, ceiling)
  }

  /** The true limit stays bracketed, and an idle search has it within the minimum gain. */
  predicate Brackets(m: Search, limit: nat) {
    && m.confirmed <= limit <= m.upper
    && (Idle(m) ==> limit <= m.confirmed + MIN_GAIN)
  }

  lemma {:induction false} StepKeepsBrackets(m: Search, e: Event, path: nat, ceiling: nat, maximum: nat)
    requires Shape(m) && m.upper <= maximum
    requires Brackets(m, Min(path, Min(ceiling, maximum)))
    requires Genuine(m, e, path, ceiling)
    ensures Brackets(Step(m, e), Min(path, Min(ceiling, maximum)))
  {
  }

  /** On every genuine run the search brackets the largest MTU that works, and when it has
      stopped the confirmed MTU is at most 8 below that limit and never above it. */
  lemma {:induction false} SearchConverges(base: nat, maximum: nat, events: seq<Event>, path: nat, ceiling: nat)
    requires base <= path && base <= ceiling
    requires GenuineRun(New(base, maximum), events, path, ceiling)
    ensures Brackets(Exec(New(base, maximum), events), Min(path, Min(ceiling, maximum)))
  {
    var start := New(base, maximum);
    if events != [] {
      var before, e := events[..|events| - 1], events[|events| - 1];
      forall i: nat | i < |before| ensures Genuine(Exec(start, before[..i]), before[i], path, ceiling) {
        assert before[..i] == events[..i] && before[i] == events[i];
      }
      SearchConverges(base, maximum, before, path, ceiling);
      SearchTerminates(base, maximum, before);
      assert events[..|events| - 1] == before;
      StepKeepsBrackets(Exec(start, before), e, path, ceiling, maximum);
    }
  }

  /** Both together: enough due polls on a genuine path end within 8 of the true limit. */
  lemma {:induction false} SearchFindsLimit(base: nat, maximum: nat, events: seq<Event>, path: nat, ceiling: nat)
    requires base <= path && base <= ceiling
    requires GenuineRun(New(base, maximum), events, path, ceiling)
    requires AllDue(New(base, maximum), events)
    requires Polls(events) > MAX_FAILURES * (maximum - Min(base, maximum))
    ensures var confirmed := Exec(New(base, maximum), events).confirmed;
            var limit := Min(path, Min(ceiling, maximum));
            confirmed <= limit <= confirmed + MIN_GAIN
  {
    SearchConverges(base, maximum, events, path, ceiling);
    SearchStops(base, maximum, events);
  }
}
