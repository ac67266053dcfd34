/** The receive pipeline between the socket and the commit: packets are sharded by session id
    onto bounded lossy queues, taken in batches, cut into parts of sixteen that decrypt
    workers serve in any interleaving, and committed part by part. Whatever the schedule,
    each session's delivered packets keep their order of arrival. */
module DataPipeline {
  import opened Base

  const QUEUE_LIMIT := 2048
  const BATCH_SIZE := 64
  const PART_SIZE := 16

  datatype Packet = Packet(session: U64, body: seq<Byte>)

  /** A part waits on its own one-shot channel, named by `id`. */
  datatype Part = Part(id: nat, packets: seq<Packet>)

  /** A data worker: between batches, or with a batch of which `parts` were handed out, in
      dispatch order, and `todo` not yet. */
  datatype Worker = Idle | Busy(parts: seq<Part>, todo: seq<Packet>)

  datatype State = State(
    arrivals: seq<Packet>,
    queues: seq<seq<Packet>>,
    workers: seq<Worker>,
    decrypting: seq<seq<Part>>,
    responses: map<nat, seq<Option<Packet>>>,
    nextDecryptWorker: nat,
    parts: seq<seq<Packet>>,
    delivered: seq<Packet>)

  /** One atomic move of one task. `known` are the sessions with a cipher, the masks say which
      packets decrypt and which the commit accepts. */
  datatype Step =
    | Arrive(packet: Packet)
    | TakeBatch(worker: nat, count: nat, expired: bool, known: set<U64>, inlineAccepted: bool)
    | DispatchPart(worker: nat)
    | Decrypt(decryptWorker: nat, succeeds: seq<bool>)
    | Commit(worker: nat, accepts: seq<bool>)
    | Abort(worker: nat)

  function Init(dataWorkers: nat, decryptWorkers: nat): State {
    State([], seq(dataWorkers, _ => []), seq(dataWorkers, _ => Idle), seq(decryptWorkers, _ => []), map[], 0, [], [])
  }

  function KnownOnly(packets: seq<Packet>, known: set<U64>): seq<Packet> {
    Select(packets, seq(|packets|, i requires 0 <= i < |packets| => packets[i].session in known))
  }

  function Results(packets: seq<Packet>, succeeds: seq<bool>): (r: seq<Option<Packet>>)
    ensures |r| == |packets|
  {
    seq(|packets|, i requires 0 <= i < |packets| => if i < |succeeds| && succeeds[i] then Some(packets[i]) else None)
  }

  function Successes(results: seq<Option<Packet>>): seq<Packet> {
    if results == [] then []
    else
      var last := |results| - 1;
      Successes(results[..last]) + (if results[last].Some? then [results[last].value] else [])
  }

  /** The decrypted packets of the parts, in the order the parts were dispatched. */
  function Collect(parts: seq<Part>, responses: map<nat, seq<Option<Packet>>>): seq<Packet>
    requires forall i | 0 <= i < |parts| :: parts[i].id in responses
  {
    if parts == [] then []
    else
      var last := |parts| - 1;
      Collect(parts[..last], responses) + Successes(responses[parts[last].id])
  }

  function MinOf(a: nat, b: nat): nat { if a < b then a else b }

  /** An idle worker takes at most a batch of what its queue holds. */
  predicate CanTake(s: State, w: nat, count: nat) {
    && w < |s.workers| && w < |s.queues| && s.workers[w].Idle?
    && 1 <= count <= MinOf(BATCH_SIZE, |s.queues[w]|)
  }

  /** A single packet is decrypted and committed at once; an expired snapshot drops the batch. */
  function AtOnce(s: State, step: Step): seq<Packet>
    requires step.TakeBatch? && CanTake(s, step.worker, step.count)
  {
    var first := s.queues[step.worker][0];
    if !step.expired && step.count == 1 && first.session in step.known && step.inlineAccepted then [first] else []
  }

  /** The packets of a larger batch that have a cipher. */
  function Jobs(s: State, step: Step): seq<Packet>
    requires step.TakeBatch? && CanTake(s, step.worker, step.count)
  {
    if step.expired || step.count == 1 then [] else KnownOnly(s.queues[step.worker][..step.count], step.known)
  }

  /** Every part of the worker's batch has been dispatched and answered. */
  predicate CanCommit(s: State, w: nat) {
    && w < |s.workers| && s.workers[w].Busy? && s.workers[w].todo == []
    && forall i | 0 <= i < |s.workers[w].parts| :: s.workers[w].parts[i].id in s.responses
  }

  function Apply(s: State, step: Step): State {
    match step
    case Arrive(p) =>
      if |s.queues| == 0 then s
      else
        var w := p.session % |s.queues|;
        var s' := s.(arrivals := s.arrivals + [p]);
        if |s.queues[w]| >= QUEUE_LIMIT then s'
        else s'.(queues := s.queues[w := s.queues[w] + [p]])
    case TakeBatch(w, count, _, _, _) =>
      if !CanTake(s, w, count) then s
      else
        var jobs := Jobs(s, step);
        s.(queues := s.queues[w := s.queues[w][count..]],
           delivered := s.delivered + AtOnce(s, step),
           workers := if jobs == [] then s.workers else s.workers[w := Busy([], jobs)])
    case DispatchPart(w) =>
      if !(w < |s.workers| && s.workers[w].Busy? && s.workers[w].todo != [] && |s.decrypting| > 0) then s
      else
        var busy := s.workers[w];
        var size := MinOf(PART_SIZE, |busy.todo|);
        var part := Part(|s.parts|, busy.todo[..size]);
        var d := s.nextDecryptWorker % |s.decrypting|;
        s.(workers := s.workers[w := Busy(busy.parts + [part], busy.todo[size..])],
           decrypting := s.decrypting[d := s.decrypting[d] + [part]],
           nextDecryptWorker := s.nextDecryptWorker + 1,
           parts := s.parts + [part.packets])
    case Decrypt(d, succeeds) =>
      if !(d < |s.decrypting| && s.decrypting[d] != []) then s
      else
        var part := s.decrypting[d][0];
        s.(decrypting := s.decrypting[d := s.decrypting[d][1..]],
           responses := s.responses[part.id := Results(part.packets, succeeds)])
    case Commit(w, accepts) =>
      if !CanCommit(s, w) then s
      else
        var decrypted := Collect(s.workers[w].parts, s.responses);
        s.(workers := s.workers[w := Idle], delivered := s.delivered + Select(decrypted, accepts))
    case Abort(w) =>
      if w < |s.workers| then s.(workers := s.workers[w := Idle]) else s
  }

  function Exec(s: State, run: seq<Step>): State {
    if run == [] then s
    else Apply(Exec(s, run[..|run| - 1]), run[|run| - 1])
  }

  // ---------------------------------------------------------------- one session's packets

  function OfSession(packets: seq<Packet>, session: U64): seq<Packet> {
    if packets == [] then []
    else
      var last := |packets| - 1;
      OfSession(packets[..last], session) + (if packets[last].session == session then [packets[last]] else [])
  }

  lemma {:induction false} OfSessionConcat(a: seq<Packet>, b: seq<Packet>, session: U64)
    ensures OfSession(a + b, session) == OfSession(a, session) + OfSession(b, session)
  {
    if b == [] {
      assert a + b == a;
    } else {
      var last := |b| - 1;
      OfSessionConcat(a, b[..last], session);
      assert (a + b)[..|a + b| - 1] == a + b[..last];
    }
  }

  lemma {:induction false} OfSessionMonotone(a: seq<Packet>, b: seq<Packet>, session: U64)
    requires Subsequence(a, b)
    ensures Subsequence(OfSession(a, session), OfSession(b, session))
    decreases |a| + |b|
  {
    if a != [] {
      var b' := b[..|b| - 1];
      assert b == b' + [b[|b| - 1]];
      OfSessionConcat(b', [b[|b| - 1]], session);
      if Subsequence(a, b') {
        OfSessionMonotone(a, b', session);
        SubsequenceConcat(OfSession(a, session), OfSession(b', session), [], OfSession([b[|b| - 1]], session));
        assert OfSession(a, session) + [] == OfSession(a, session);
      } else {
        var a' := a[..|a| - 1];
        assert a == a' + [a[|a| - 1]];
        OfSessionConcat(a', [a[|a| - 1]], session);
        OfSessionMonotone(a', b', session);
        SubsequenceSelf(OfSession([b[|b| - 1]], session));
        SubsequenceConcat(OfSession(a', session), OfSession(b', session),
                          OfSession([a[|a| - 1]], session), OfSession([b[|b| - 1]], session));
      }
    }
  }

  /** All packets on shard `w` of `n`. */
  ghost predicate Sharded(packets: seq<Packet>, w: nat, n: nat)
    requires n > 0
  {
    forall i | 0 <= i < |packets| :: packets[i].session % n == w
  }

  lemma {:induction false} ShardedOf(packets: seq<Packet>, w: nat, n: nat, session: U64)
    requires n > 0 && Sharded(packets, w, n) && session % n != w
    ensures OfSession(packets, session) == []
  {
    if packets != [] {
      ShardedOf(packets[..|packets| - 1], w, n, session);
    }
  }

  lemma {:induction false} ShardedSubsequence(a: seq<Packet>, b: seq<Packet>, w: nat, n: nat)
    requires n > 0 && Subsequence(a, b) && Sharded(b, w, n)
    ensures Sharded(a, w, n)
    decreases |a| + |b|
  {
    if a != [] {
      if Subsequence(a, b[..|b| - 1]) {
        ShardedSubsequence(a, b[..|b| - 1], w, n);
      } else {
        ShardedSubsequence(a[..|a| - 1], b[..|b| - 1], w, n);
      }
    }
  }

  function Flatten(parts: seq<Part>): seq<Packet> {
    if parts == [] then [] else Flatten(parts[..|parts| - 1]) + parts[|parts| - 1].packets
  }

  function InFlight(w: Worker): seq<Packet> {
    match w
    case Idle => []
    case Busy(parts, todo) => Flatten(parts) + todo
  }

  /** A decrypt worker's answer holds the part's own packets, each in place or failed. */
  ghost predicate Answers(results: seq<Option<Packet>>, packets: seq<Packet>) {
    && |results| == |packets|
    && forall i | 0 <= i < |results| :: results[i] == None || results[i] == Some(packets[i])
  }

  lemma {:induction false} SuccessesInOrder(results: seq<Option<Packet>>, packets: seq<Packet>)
    requires Answers(results, packets)
    ensures Subsequence(Successes(results), packets)
  {
    if results != [] {
      var last := |results| - 1;
      SuccessesInOrder(results[..last], packets[..last]);
      SubsequenceSelf([packets[last]]);
      SubsequenceConcat(Successes(results[..last]), packets[..last],
                        if results[last].Some? then [results[last].value] else [], [packets[last]]);
      assert packets == packets[..last] + [packets[last]];
    }
  }

  lemma {:induction false} CollectInOrder(parts: seq<Part>, responses: map<nat, seq<Option<Packet>>>)
    requires forall i | 0 <= i < |parts| :: parts[i].id in responses && Answers(responses[parts[i].id], parts[i].packets)
    ensures Subsequence(Collect(parts, responses), Flatten(parts))
  {
    if parts != [] {
      var last := |parts| - 1;
      CollectInOrder(parts[..last], responses);
      SuccessesInOrder(responses[parts[last].id], parts[last].packets);
      SubsequenceConcat(Collect(parts[..last], responses), Flatten(parts[..last]),
                        Successes(responses[parts[last].id]), parts[last].packets);
    }
  }

  // ---------------------------------------------------------------- invariant

  /** Channels are used once: an id names the same packets in the worker that waits, in the
      decrypt queue and in the answer, however the decrypt workers are scheduled. */
  ghost predicate Channels(s: State) {
    && (forall w, i | 0 <= w < |s.workers| && s.workers[w].Busy? && 0 <= i < |s.workers[w].parts| ::
          IsPart(s, s.workers[w].parts[i]))
    && (forall d, i | 0 <= d < |s.decrypting| && 0 <= i < |s.decrypting[d]| :: IsPart(s, s.decrypting[d][i]))
    && (forall id | id in s.responses :: id < |s.parts| && Answers(s.responses[id], s.parts[id]))
  }

  ghost predicate IsPart(s: State, part: Part) {
    part.id < |s.parts| && part.packets == s.parts[part.id]
  }

  ghost predicate OnShards(s: State) {
    && |s.queues| == |s.workers| > 0
    && (forall w | 0 <= w < |s.queues| :: Sharded(s.queues[w], w, |s.queues|))
    && (forall w | 0 <= w < |s.workers| :: Sharded(InFlight(s.workers[w]), w, |s.queues|))
  }

  /** What shard `w` has delivered, holds in flight and holds queued, in that order. */
  function Line(s: State, session: U64): seq<Packet>
    requires |s.queues| == |s.workers| > 0
  {
    var w := session % |s.queues|;
    OfSession(s.delivered, session) + OfSession(InFlight(s.workers[w]) + s.queues[w], session)
  }

  ghost predicate InOrder(s: State, session: U64)
    requires |s.queues| == |s.workers| > 0
  {
    Subsequence(Line(s, session), OfSession(s.arrivals, session))
  }

  ghost predicate Inv(s: State) {
    && OnShards(s)
    && Channels(s)
    && forall session: U64 :: InOrder(s, session)
  }

  /** A worker's move: it delivers `x` and changes its own batch and queue, dropping packets at most. */
  ghost predicate Moves(s: State, s': State, w: nat, x: seq<Packet>) {
    && s'.arrivals == s.arrivals && s'.delivered == s.delivered + x
    && |s'.queues| == |s.queues| == |s'.workers| == |s.workers| && w < |s.workers|
    && (forall v | 0 <= v < |s.queues| && v != w :: s'.queues[v] == s.queues[v] && s'.workers[v] == s.workers[v])
    && Subsequence(x + (InFlight(s'.workers[w]) + s'.queues[w]), InFlight(s.workers[w]) + s.queues[w])
  }

  /** The worker's sessions keep their order and no other shard notices. */
  lemma {:induction false} WorkerMove(s: State, s': State, w: nat, x: seq<Packet>)
    requires OnShards(s)
    requires forall session: U64 :: InOrder(s, session)
    requires Moves(s, s', w, x)
    ensures OnShards(s')
    ensures forall session: U64 :: InOrder(s', session)
  {
    var n := |s.queues|;
    var old_ := InFlight(s.workers[w]) + s.queues[w];
    var rest := InFlight(s'.workers[w]) + s'.queues[w];
    assert Sharded(old_, w, n);
    ShardedSubsequence(x + rest, old_, w, n);
    assert Sharded(x, w, n) by {
      forall i | 0 <= i < |x| ensures x[i].session % n == w { assert (x + rest)[i] == x[i]; }
    }
    assert Sharded(rest, w, n) by {
      forall i | 0 <= i < |rest| ensures rest[i].session % n == w { assert (x + rest)[|x| + i] == rest[i]; }
    }
    assert Sharded(s'.queues[w], w, n) by {
      var k := |InFlight(s'.workers[w])|;
      forall i | 0 <= i < |s'.queues[w]| ensures s'.queues[w][i].session % n == w { assert rest[k + i] == s'.queues[w][i]; }
    }
    assert Sharded(InFlight(s'.workers[w]), w, n) by {
      var f := InFlight(s'.workers[w]);
      forall i | 0 <= i < |f| ensures f[i].session % n == w { assert rest[i] == f[i]; }
    }
    forall session: U64 ensures InOrder(s', session) {
      LineShrinks(s, s', w, x, session);
    }
  }

  lemma {:induction false} LineShrinks(s: State, s': State, w: nat, x: seq<Packet>, session: U64)
    requires |s.queues| == |s.workers| > 0 && InOrder(s, session)
    requires Moves(s, s', w, x)
    requires Sharded(x, w, |s.queues|)
    ensures InOrder(s', session)
  {
    if session % |s.queues| == w {
      ShorterLine(s.delivered, x, InFlight(s'.workers[w]) + s'.queues[w], InFlight(s.workers[w]) + s.queues[w],
                  session, OfSession(s.arrivals, session));
    } else {
      OfSessionConcat(s.delivered, x, session);
      ShardedOf(x, w, |s.queues|, session);
      assert OfSession(s.delivered, session) + [] == OfSession(s.delivered, session);
    }
  }

  /** Moving `x` from the head of the line to the delivered packets, with drops, keeps order. */
  lemma {:induction false} ShorterLine(delivered: seq<Packet>, x: seq<Packet>, rest: seq<Packet>, before: seq<Packet>, session: U64,
                    arrivals: seq<Packet>)
    requires Subsequence(x + rest, before)
    requires Subsequence(OfSession(delivered, session) + OfSession(before, session), arrivals)
    ensures Subsequence(OfSession(delivered + x, session) + OfSession(rest, session), arrivals)
  {
    var of := OfSession(delivered, session);
    OfSessionConcat(delivered, x, session);
    OfSessionConcat(x, rest, session);
    OfSessionMonotone(x + rest, before, session);
    SubsequenceShorterTail(of, OfSession(x + rest, session), OfSession(before, session), arrivals);
    Associate(of, OfSession(x, session), OfSession(rest, session));
  }

  lemma {:induction false} Associate(a: seq<Packet>, b: seq<Packet>, c: seq<Packet>)
    ensures a + (b + c) == (a + b) + c
  {
  }

  lemma {:induction false} DropInFront(y: seq<Packet>, front: seq<Packet>, rest: seq<Packet>)
    requires Subsequence(y, front)
    ensures Subsequence(y + rest, front + rest)
  {
    SubsequenceLonger(y, front, rest);
  }

  /** A new arrival goes to the end of the line or is lost. */
  lemma {:induction false} LongerLine(delivered: seq<Packet>, line: seq<Packet>, arrivals: seq<Packet>, p: Packet, session: U64)
    requires Subsequence(OfSession(delivered, session) + OfSession(line, session), OfSession(arrivals, session))
    ensures Subsequence(OfSession(delivered, session) + OfSession(line + [p], session), OfSession(arrivals + [p], session))
    ensures Subsequence(OfSession(delivered, session) + OfSession(line, session), OfSession(arrivals + [p], session))
  {
    var one := OfSession([p], session);
    var ordered := OfSession(delivered, session) + OfSession(line, session);
    OfSessionConcat(arrivals, [p], session);
    OfSessionConcat(line, [p], session);
    SubsequenceLonger(ordered, OfSession(arrivals, session), one);
    Associate(OfSession(delivered, session), OfSession(line, session), one);
  }

  lemma {:induction false} ArriveOrdered(s: State, p: Packet, session: U64)
    requires OnShards(s) && InOrder(s, session)
    ensures InOrder(Apply(s, Arrive(p)), session)
  {
    var s', v := Apply(s, Arrive(p)), session % |s.queues|;
    var f, q := InFlight(s.workers[v]), s.queues[v];
    LongerLine(s.delivered, f + q, s.arrivals, p, session);
    assert s'.arrivals == s.arrivals + [p] && s'.delivered == s.delivered && s'.workers == s.workers;
    assert s'.queues[v] == q || s'.queues[v] == q + [p];
    if s'.queues[v] != q {
      Associate(f, q, [p]);
      assert Line(s', session) == OfSession(s.delivered, session) + OfSession((f + q) + [p], session);
    } else {
      assert Line(s', session) == Line(s, session);
    }
  }

  lemma {:induction false} ArriveSharded(s: State, p: Packet)
    requires OnShards(s)
    ensures OnShards(Apply(s, Arrive(p)))
  {
  }

  lemma {:induction false} ArriveKeeps(s: State, p: Packet)
    requires Inv(s)
    ensures Inv(Apply(s, Arrive(p)))
  {
    var s' := Apply(s, Arrive(p));
    ArriveSharded(s, p);
    forall session: U64 ensures InOrder(s', session) {
      ArriveOrdered(s, p, session);
    }
    SameChannels(s, s');
  }

  lemma {:induction false} SameChannels(s: State, s': State)
    requires Channels(s)
    requires s'.decrypting == s.decrypting && s'.responses == s.responses && s'.parts == s.parts
    requires |s'.workers| == |s.workers|
    requires forall w | 0 <= w < |s.workers| :: s'.workers[w] == s.workers[w] || s'.workers[w].Idle? || s'.workers[w].parts == []
    ensures Channels(s')
  {
  }

  /** Of a batch, what is delivered at once or kept as jobs is a subsequence. */
  lemma {:induction false} BatchShrinks(s: State, step: Step)
    requires step.TakeBatch? && CanTake(s, step.worker, step.count)
    ensures Subsequence(AtOnce(s, step) + Jobs(s, step), s.queues[step.worker][..step.count])
  {
    var batch := s.queues[step.worker][..step.count];
    if AtOnce(s, step) != [] {
      SubsequenceSelf(batch);
      assert AtOnce(s, step) + Jobs(s, step) == batch;
    } else if Jobs(s, step) != [] {
      SelectIsSubsequence(batch, seq(|batch|, i requires 0 <= i < |batch| => batch[i].session in step.known));
      assert AtOnce(s, step) + Jobs(s, step) == KnownOnly(batch, step.known);
    }
  }

  lemma {:induction false} FrontLine(x: seq<Packet>, f: seq<Packet>, batch: seq<Packet>, rest: seq<Packet>, q: seq<Packet>)
    requires Subsequence(x + f, batch) && q == batch + rest
    ensures Subsequence(x + (f + rest), [] + q)
  {
    DropInFront(x + f, batch, rest);
    Associate(x, f, rest);
    assert [] + q == q;
  }

  lemma {:induction false} TakeBatchMoves(s: State, step: Step)
    requires Inv(s) && step.TakeBatch? && CanTake(s, step.worker, step.count)
    ensures Moves(s, Apply(s, step), step.worker, AtOnce(s, step))
  {
    var s', w := Apply(s, step), step.worker;
    var q := s.queues[w];
    BatchShrinks(s, step);
    assert InFlight(s'.workers[w]) == Jobs(s, step);
    FrontLine(AtOnce(s, step), Jobs(s, step), q[..step.count], q[step.count..], q);
  }

  lemma {:induction false} TakeBatchKeeps(s: State, step: Step)
    requires Inv(s) && step.TakeBatch?
    ensures Inv(Apply(s, step))
  {
    if CanTake(s, step.worker, step.count) {
      TakeBatchMoves(s, step);
      WorkerMove(s, Apply(s, step), step.worker, AtOnce(s, step));
      SameChannels(s, Apply(s, step));
    }
  }

  lemma {:induction false} DispatchKeeps(s: State, w: nat)
    requires Inv(s)
    ensures Inv(Apply(s, DispatchPart(w)))
  {
    var s' := Apply(s, DispatchPart(w));
    if s' != s {
      var busy, after := s.workers[w], s'.workers[w];
      var part := after.parts[|after.parts| - 1];
      assert after.parts[..|after.parts| - 1] == busy.parts;
      assert part.packets + after.todo == busy.todo;
      assert InFlight(after) == InFlight(busy);
      var line := InFlight(busy) + s.queues[w];
      SubsequenceSelf(line);
      assert [] + line == line;
      WorkerMove(s, s', w, []);
      DispatchChannels(s, w);
    }
  }

  lemma {:induction false} DispatchChannels(s: State, w: nat)
    requires Channels(s)
    ensures Channels(Apply(s, DispatchPart(w)))
  {
    var s' := Apply(s, DispatchPart(w));
    if s' != s {
      forall part | IsPart(s, part) ensures IsPart(s', part) {
      }
      forall d, i | 0 <= d < |s'.decrypting| && 0 <= i < |s'.decrypting[d]| ensures IsPart(s', s'.decrypting[d][i]) {
        if i < |s.decrypting[d]| {
          assert IsPart(s, s.decrypting[d][i]);
        }
      }
      forall v, i | 0 <= v < |s'.workers| && s'.workers[v].Busy? && 0 <= i < |s'.workers[v].parts|
        ensures IsPart(s', s'.workers[v].parts[i])
      {
        if v != w || i < |s.workers[v].parts| {
          assert IsPart(s, s.workers[v].parts[i]);
        }
      }
    }
  }

  lemma {:induction false} DecryptKeeps(s: State, d: nat, succeeds: seq<bool>)
    requires Inv(s)
    ensures Inv(Apply(s, Decrypt(d, succeeds)))
  {
    var s' := Apply(s, Decrypt(d, succeeds));
    if s' != s {
      forall session: U64 ensures InOrder(s', session) {
        assert InOrder(s, session);
        assert Line(s', session) == Line(s, session);
      }
      assert IsPart(s, s.decrypting[d][0]);
      assert Channels(s');
    }
  }

  lemma {:induction false} AcceptedInOrder(parts: seq<Part>, responses: map<nat, seq<Option<Packet>>>, accepts: seq<bool>)
    requires forall i | 0 <= i < |parts| :: parts[i].id in responses && Answers(responses[parts[i].id], parts[i].packets)
    ensures Subsequence(Select(Collect(parts, responses), accepts), Flatten(parts))
  {
    var decrypted := Collect(parts, responses);
    CollectInOrder(parts, responses);
    SelectIsSubsequence(decrypted, accepts);
    SubsequenceTransitive(Select(decrypted, accepts), decrypted, Flatten(parts));
  }

  lemma {:induction false} CommitLine(parts: seq<Part>, x: seq<Packet>, queue: seq<Packet>)
    requires Subsequence(x, Flatten(parts))
    ensures Subsequence(x + (InFlight(Idle) + queue), InFlight(Busy(parts, [])) + queue)
  {
    DropInFront(x, Flatten(parts), queue);
    assert InFlight(Busy(parts, [])) == Flatten(parts);
    assert InFlight(Idle) + queue == queue;
  }

  lemma {:induction false} CommitMoves(s: State, w: nat, accepts: seq<bool>)
    requires Inv(s) && CanCommit(s, w)
    ensures Moves(s, Apply(s, Commit(w, accepts)), w, Select(Collect(s.workers[w].parts, s.responses), accepts))
  {
    var parts := s.workers[w].parts;
    forall i | 0 <= i < |parts| ensures Answers(s.responses[parts[i].id], parts[i].packets) {
      assert IsPart(s, parts[i]);
    }
    AcceptedInOrder(parts, s.responses, accepts);
    assert s.workers[w] == Busy(parts, []);
    CommitLine(parts, Select(Collect(parts, s.responses), accepts), s.queues[w]);
  }

  lemma {:induction false} CommitKeeps(s: State, w: nat, accepts: seq<bool>)
    requires Inv(s)
    ensures Inv(Apply(s, Commit(w, accepts)))
  {
    if CanCommit(s, w) {
      var s' := Apply(s, Commit(w, accepts));
      CommitMoves(s, w, accepts);
      WorkerMove(s, s', w, Select(Collect(s.workers[w].parts, s.responses), accepts));
      SameChannels(s, s');
    }
  }

  lemma {:induction false} AbortKeeps(s: State, w: nat)
    requires Inv(s)
    ensures Inv(Apply(s, Abort(w)))
  {
    var s' := Apply(s, Abort(w));
    if s' != s {
      DropInFront([], InFlight(s.workers[w]), s.queues[w]);
      assert [] + ([] + s.queues[w]) == [] + s.queues[w];
      assert s'.delivered == s.delivered + [];
      WorkerMove(s, s', w, []);
      assert Channels(s');
    }
  }

  lemma {:induction false} StepKeeps(s: State, step: Step)
    requires Inv(s)
    ensures Inv(Apply(s, step))
  {
    match step
    case Arrive(p) => ArriveKeeps(s, p);
    case TakeBatch(_, _, _, _, _) => TakeBatchKeeps(s, step);
    case DispatchPart(w) => DispatchKeeps(s, w);
    case Decrypt(d, succeeds) => DecryptKeeps(s, d, succeeds);
    case Commit(w, accepts) => CommitKeeps(s, w, accepts);
    case Abort(w) => AbortKeeps(s, w);
  }

  lemma {:induction false} RunKeeps(dataWorkers: nat, decryptWorkers: nat, run: seq<Step>)
    requires dataWorkers > 0
    ensures Inv(Exec(Init(dataWorkers, decryptWorkers), run))
  {
    if run != [] {
      RunKeeps(dataWorkers, decryptWorkers, run[..|run| - 1]);
      StepKeeps(Exec(Init(dataWorkers, decryptWorkers), run[..|run| - 1]), run[|run| - 1]);
    }
  }

  /** For every number of workers and every run: what a session has delivered is its wire
      arrivals in their order, less the dropped ones, and no arrival is delivered twice. */
  lemma {:induction false} SessionOrderKept(dataWorkers: nat, decryptWorkers: nat, run: seq<Step>, session: U64)
    requires dataWorkers > 0
    ensures var s := Exec(Init(dataWorkers, decryptWorkers), run);
            Subsequence(OfSession(s.delivered, session), OfSession(s.arrivals, session))
  {
    RunKeeps(dataWorkers, decryptWorkers, run);
    var s := Exec(Init(dataWorkers, decryptWorkers), run);
    assert InOrder(s, session);
    var of := OfSession(s.delivered, session);
    SubsequenceSelf(of);
    SubsequenceConcat(of, of, [], OfSession(InFlight(s.workers[session % |s.queues|]) + s.queues[session % |s.queues|], session));
    assert of + [] == of;
    SubsequenceTransitive(of, Line(s, session), OfSession(s.arrivals, session));
  }
}
