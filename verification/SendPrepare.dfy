/** Preparing one group of packets for a peer: size screening, sequence allocation, encryption in
    parallel chunks of which any may crash, or queueing for a peer without a session. */
module SendPrepare {
  import opened Base
  import opened Ip

  const PARALLEL_THRESHOLD := 16
  const MAX_ENCRYPT_WORKERS := 4
  const MAX_PAYLOAD_LEN := 65535
  const TAG_LEN := 16

  type Addr = nat

  datatype SendError =
    | IpFailure(error: IpError)
    | UnknownPeer
    | SnapshotExpired
    | PacketTooLarge
    | QueueFull
    | Protocol
    | Io

  datatype TxSession = TxSession(sessionId: U64, path: Addr, txSequence: nat, confirmedMtu: nat)

  datatype Peer = Peer(active: Option<TxSession>, queue: seq<seq<Byte>>)

  datatype Prepared = Prepared(peer: NodeId, sessionId: U64, sequence: nat, path: Addr, plaintext: seq<Byte>)

  /** The node's settings, and whether its snapshot has expired when the group is prepared. */
  datatype Config = Config(virtualMtu: nat, maxPayload: nat, queueLimit: nat, dataWorkers: nat, expired: bool)

  type Preparation = Result<Option<Prepared>, SendError>

  // ---------------------------------------------------------------- one packet at a time

  function Encrypted(id: NodeId, tx: TxSession, sequence: nat, ip: IpPacket): Preparation {
    if |ip.bytes| + TAG_LEN > MAX_PAYLOAD_LEN then Err(Protocol)
    else Ok(Some(Prepared(id, tx.sessionId, sequence, tx.path, ip.bytes)))
  }

  predicate ConfigFits(c: Config, ip: IpPacket) {
    |ip.bytes| <= c.virtualMtu && |ip.bytes| <= c.maxPayload
  }

  /** The reference: what a single packet for a peer gets. */
  function PrepareOne(c: Config, id: NodeId, peer: Peer, ip: IpPacket): Preparation {
    if c.expired then Err(SnapshotExpired)
    else if !ConfigFits(c, ip) then Err(PacketTooLarge)
    else
      match peer.active
      case Some(tx) => if |ip.bytes| > tx.confirmedMtu then Err(PacketTooLarge) else Encrypted(id, tx, tx.txSequence, ip)
      case None => if |peer.queue| >= c.queueLimit then Err(QueueFull) else Ok(None)
  }

  /** And what it leaves of the peer: a sequence number used, a packet queued, or, with an expired
      snapshot, no session. */
  function AfterOne(c: Config, peer: Peer, ip: IpPacket): Peer {
    if c.expired then Peer(None, [])
    else if !ConfigFits(c, ip) then peer
    else
      match peer.active
      case Some(tx) =>
        if |ip.bytes| > tx.confirmedMtu then peer else peer.(active := Some(tx.(txSequence := tx.txSequence + 1)))
      case None => if |peer.queue| >= c.queueLimit then peer else peer.(queue := peer.queue + [ip.bytes])
  }

  /** The peer after the first `n` packets were prepared one by one. */
  function PeerAfter(c: Config, peer: Peer, ips: seq<IpPacket>, n: nat): Peer
    requires n <= |ips|
  {
    if n == 0 then peer else AfterOne(c, PeerAfter(c, peer, ips, n - 1), ips[n - 1])
  }

  /** What the `i`-th packet gets when they are prepared one by one. */
  function PreparationAt(c: Config, id: NodeId, peer: Peer, ips: seq<IpPacket>, i: nat): Preparation
    requires i < |ips|
  {
    PrepareOne(c, id, PeerAfter(c, peer, ips, i), ips[i])
  }

  // ---------------------------------------------------------------- indices of the packets that fit

  /** The configured sizes and, with a session, its confirmed MTU. */
  predicate Fits(c: Config, limit: Option<nat>, ip: IpPacket) {
    ConfigFits(c, ip) && (limit.Some? ==> |ip.bytes| <= limit.value)
  }

  function LimitOf(peer: Peer): Option<nat> {
    match peer.active
    case Some(tx) => Some(tx.confirmedMtu)
    case None => None
  }

  /** How many of the first `n` packets fit. */
  function FitCount(c: Config, limit: Option<nat>, ips: seq<IpPacket>, n: nat): nat
    requires n <= |ips|
  {
    if n == 0 then 0 else FitCount(c, limit, ips, n - 1) + (if Fits(c, limit, ips[n - 1]) then 1 else 0)
  }

  /** `indices` are the fitting ones of the first `n`, in order. */
  ghost predicate AreFits(c: Config, limit: Option<nat>, ips: seq<IpPacket>, n: nat, indices: seq<nat>)
    requires n <= |ips|
  {
    && (forall k | 0 <= k < |indices| :: indices[k] < n && Fits(c, limit, ips[indices[k]]))
    && (forall j, k | 0 <= j < k < |indices| :: indices[j] < indices[k])
    && (forall i: nat {:trigger i in indices} | i < n && Fits(c, limit, ips[i]) :: i in indices)
  }

  /** Without the last packet: one index less if it fits, the same ones otherwise. */
  lemma {:induction false} AreFitsBefore(c: Config, limit: Option<nat>, ips: seq<IpPacket>, n: nat, indices: seq<nat>)
    requires 0 < n <= |ips| && AreFits(c, limit, ips, n, indices)
    ensures Fits(c, limit, ips[n - 1]) ==>
              && indices != [] && indices[|indices| - 1] == n - 1
              && AreFits(c, limit, ips, n - 1, indices[..|indices| - 1])
    ensures !Fits(c, limit, ips[n - 1]) ==> AreFits(c, limit, ips, n - 1, indices)
  {
    if Fits(c, limit, ips[n - 1]) {
      assert n - 1 in indices;
      var before := indices[..|indices| - 1];
      assert indices == before + [n - 1];
      forall i: nat | i < n - 1 && Fits(c, limit, ips[i]) ensures i in before {
        assert i in indices;
      }
    } else {
      assert forall k | 0 <= k < |indices| :: indices[k] != n - 1;
    }
  }

  lemma {:induction false} NoIndexBelowZero(indices: seq<nat>)
    requires forall k | 0 <= k < |indices| :: indices[k] < 0
    ensures indices == []
  {
    var first := if indices == [] then 1 else indices[0];
    assert first >= 0;
  }

  /** The position of an index among them is the number of fitting packets before it. */
  lemma {:induction false} FitCountAt(c: Config, limit: Option<nat>, ips: seq<IpPacket>, n: nat, indices: seq<nat>, k: nat)
    requires n <= |ips| && AreFits(c, limit, ips, n, indices)
    ensures |indices| == FitCount(c, limit, ips, n)
    ensures k < |indices| ==> FitCount(c, limit, ips, indices[k]) == k
  {
    if n == 0 {
      NoIndexBelowZero(indices);
    } else {
      AreFitsBefore(c, limit, ips, n, indices);
      if Fits(c, limit, ips[n - 1]) {
        FitCountAt(c, limit, ips, n - 1, indices[..|indices| - 1], k);
      } else {
        FitCountAt(c, limit, ips, n - 1, indices, k);
      }
    }
  }

  lemma {:induction false} SequenceAdvances(c: Config, peer: Peer, ips: seq<IpPacket>, n: nat)
    requires !c.expired
    requires peer.active.Some? && n <= |ips|
    ensures var tx := peer.active.value;
            PeerAfter(c, peer, ips, n) ==
            peer.(active := Some(tx.(txSequence := tx.txSequence + FitCount(c, LimitOf(peer), ips, n))))
  {
    if n > 0 {
      SequenceAdvances(c, peer, ips, n - 1);
    }
  }

  /** With a session, the k-th fitting packet gets the k-th sequence after the current one;
      all others are too large. */
  lemma {:induction false} PreparationActive(c: Config, id: NodeId, peer: Peer, ips: seq<IpPacket>, i: nat)
    requires !c.expired
    requires peer.active.Some? && i < |ips|
    ensures var tx := peer.active.value;
            PreparationAt(c, id, peer, ips, i) ==
            if Fits(c, LimitOf(peer), ips[i])
            then Encrypted(id, tx, tx.txSequence + FitCount(c, LimitOf(peer), ips, i), ips[i])
            else Err(PacketTooLarge)
  {
    SequenceAdvances(c, peer, ips, i);
  }

  lemma {:induction false} NoFitNoChange(c: Config, peer: Peer, ips: seq<IpPacket>, a: nat, b: nat)
    requires !c.expired
    requires peer.active.None? && a <= b <= |ips|
    requires forall i: nat | a <= i < b :: !ConfigFits(c, ips[i])
    ensures PeerAfter(c, peer, ips, a) == PeerAfter(c, peer, ips, b)
  {
    if a < b {
      NoFitNoChange(c, peer, ips, a, b - 1);
    }
  }

  // ---------------------------------------------------------------- the batched code

  type Slots = seq<Option<Preparation>>

  datatype Work = Work(index: nat, sequence: nat, ip: IpPacket)

  function Screen(c: Config, limit: Option<nat>, ip: IpPacket): Option<Preparation> {
    if Fits(c, limit, ip) then None else Some(Err(PacketTooLarge))
  }

  /** The first `n` slots hold a failure for exactly the packets that do not fit. */
  ghost predicate Screened(c: Config, limit: Option<nat>, ips: seq<IpPacket>, slots: Slots, n: nat) {
    && |slots| == |ips|
    && n <= |ips|
    && forall i | 0 <= i < n :: slots[i] == Screen(c, limit, ips[i])
  }

  method ScreenSizes(c: Config, ips: seq<IpPacket>) returns (valid: seq<nat>, slots: Slots)
    ensures AreFits(c, None, ips, |ips|, valid)
    ensures Screened(c, None, ips, slots, |ips|)
  {
    slots := seq(|ips|, _ => None);
    valid := [];
    for index := 0 to |ips|
      invariant AreFits(c, None, ips, index, valid)
      invariant Screened(c, None, ips, slots, index)
      invariant forall i | index <= i < |ips| :: slots[i] == None
    {
      if |ips[index].bytes| > c.virtualMtu || |ips[index].bytes| > c.maxPayload {
        slots := slots[index := Some(Err(PacketTooLarge))];
      } else {
        valid := valid + [index];
      }
    }
  }

  /** The second screening, under the session lock, goes over the surviving indices only. */
  method ScreenPathMtu(c: Config, ips: seq<IpPacket>, limit: nat, valid: seq<nat>, screened: Slots)
    returns (kept: seq<nat>, slots: Slots)
    requires AreFits(c, None, ips, |ips|, valid) && Screened(c, None, ips, screened, |ips|)
    ensures AreFits(c, Some(limit), ips, |ips|, kept)
    ensures Screened(c, Some(limit), ips, slots, |ips|)
  {
    kept := [];
    slots := screened;
    for k := 0 to |valid|
      invariant |slots| == |ips|
      invariant forall j | 0 <= j < |kept| :: kept[j] < |ips| && Fits(c, Some(limit), ips[kept[j]])
      invariant forall j | 0 <= j < |kept| :: k < |valid| ==> kept[j] < valid[k]
      invariant forall i, j | 0 <= i < j < |kept| :: kept[i] < kept[j]
      invariant forall j | 0 <= j < k :: |ips[valid[j]].bytes| <= limit ==> valid[j] in kept
      invariant forall j | 0 <= j < k :: slots[valid[j]] == Screen(c, Some(limit), ips[valid[j]])
      invariant forall i | 0 <= i < |ips| && !ConfigFits(c, ips[i]) :: slots[i] == screened[i]
      invariant forall j | k <= j < |valid| :: slots[valid[j]] == None
    {
      var index := valid[k];
      if |ips[index].bytes| > limit {
        slots := slots[index := Some(Err(PacketTooLarge))];
      } else {
        kept := kept + [index];
      }
    }
    AllScreened(c, ips, limit, valid, screened, kept, slots);
  }

  lemma {:induction false} AllScreened(c: Config, ips: seq<IpPacket>, limit: nat, valid: seq<nat>, screened: Slots, kept: seq<nat>, slots: Slots)
    requires AreFits(c, None, ips, |ips|, valid) && Screened(c, None, ips, screened, |ips|) && |slots| == |ips|
    requires forall j | 0 <= j < |valid| :: |ips[valid[j]].bytes| <= limit ==> valid[j] in kept
    requires forall j | 0 <= j < |valid| :: slots[valid[j]] == Screen(c, Some(limit), ips[valid[j]])
    requires forall i | 0 <= i < |ips| && !ConfigFits(c, ips[i]) :: slots[i] == screened[i]
    ensures forall i: nat | i < |ips| && Fits(c, Some(limit), ips[i]) :: i in kept
    ensures Screened(c, Some(limit), ips, slots, |ips|)
  {
    forall i: nat | i < |ips| && Fits(c, None, ips[i])
      ensures slots[i] == Screen(c, Some(limit), ips[i]) && (|ips[i].bytes| <= limit ==> i in kept)
    {
      assert i in valid;
      var j :| 0 <= j < |valid| && valid[j] == i;
    }
  }

  // ---------------------------------------------------------------- parallel encryption

  function Least(a: nat, b: nat): nat { if a < b then a else b }

  /** `len.div_ceil(workers)` for the number of workers `n` items are shared among. */
  function ChunkSize(dataWorkers: nat, n: nat): (size: nat)
    requires n > 0 && dataWorkers > 0
    ensures size > 0
  {
    var workers := Least(MAX_ENCRYPT_WORKERS, Least(dataWorkers, n));
    (n + workers - 1) / workers
  }

  /** Item `k` of `n` is encrypted by a task of its own chunk, and that task crashes. */
  predicate Lost(dataWorkers: nat, n: nat, k: nat, crashes: nat -> bool) {
    n >= PARALLEL_THRESHOLD && dataWorkers > 1 && crashes(k / ChunkSize(dataWorkers, n))
  }

  function Item(id: NodeId, tx: TxSession, w: Work, lost: bool): Preparation {
    if lost then Err(Io) else Encrypted(id, tx, w.sequence, w.ip)
  }

  predicate Apart(work: seq<Work>, size: nat) {
    && (forall k | 0 <= k < |work| :: work[k].index < size)
    && (forall j, k | 0 <= j < k < |work| :: work[j].index != work[k].index)
  }

  /** One task's results go into the slots of its items, whatever those held, and nowhere else. */
  method EncryptChunk(id: NodeId, tx: TxSession, work: seq<Work>, lo: nat, hi: nat, start: Slots) returns (slots: Slots)
    requires lo <= hi <= |work| && Apart(work, |start|)
    ensures |slots| == |start|
    ensures forall k | lo <= k < hi :: slots[work[k].index] == Some(Item(id, tx, work[k], false))
    ensures forall i | 0 <= i < |start| && (forall k | lo <= k < hi :: work[k].index != i) :: slots[i] == start[i]
  {
    slots := start;
    for k := lo to hi
      invariant |slots| == |start|
      invariant forall j | lo <= j < k :: slots[work[j].index] == Some(Item(id, tx, work[j], false))
      invariant forall i | 0 <= i < |start| && (forall j | lo <= j < k :: work[j].index != i) :: slots[i] == start[i]
    {
      slots := slots[work[k].index := Some(Item(id, tx, work[k], false))];
    }
  }

  function FillEmpty(slots: Slots): (filled: Slots)
    ensures |filled| == |slots|
  {
    seq(|slots|, i requires 0 <= i < |slots| => if slots[i].None? then Some(Err(Io)) else slots[i])
  }

  /** Items before `n` hold their result; those from `n` on are open, or were given up by a crash
      before their own task was looked at. */
  ghost predicate Encrypting(id: NodeId, tx: TxSession, dataWorkers: nat, work: seq<Work>, crashes: nat -> bool,
                             start: Slots, slots: Slots, n: nat) {
    && |slots| == |start| && n <= |work| && Apart(work, |start|)
    && (forall i | 0 <= i < |start| && start[i].Some? :: slots[i] == start[i])
    && (forall k | 0 <= k < n ::
          slots[work[k].index] == Some(Item(id, tx, work[k], Lost(dataWorkers, |work|, k, crashes))))
    && (forall k | n <= k < |work| :: slots[work[k].index] == None || slots[work[k].index] == Some(Err(Io)))
  }

  lemma {:induction false} InChunk(k: nat, size: nat, task: nat)
    requires size > 0 && task * size <= k < task * size + size
    ensures k / size == task
  {
    Rest(k, size, task, k - task * size);
  }

  lemma {:induction false} CrashStep(id: NodeId, tx: TxSession, dataWorkers: nat, work: seq<Work>, crashes: nat -> bool,
                                     start: Slots, slots: Slots, lo: nat, hi: nat, task: nat)
    requires |work| >= PARALLEL_THRESHOLD && dataWorkers > 1 && lo <= hi <= |work|
    requires lo == task * ChunkSize(dataWorkers, |work|) && hi <= lo + ChunkSize(dataWorkers, |work|) && crashes(task)
    requires Encrypting(id, tx, dataWorkers, work, crashes, start, slots, lo)
    ensures Encrypting(id, tx, dataWorkers, work, crashes, start, FillEmpty(slots), hi)
  {
    forall k | lo <= k < hi ensures Lost(dataWorkers, |work|, k, crashes) {
      InChunk(k, ChunkSize(dataWorkers, |work|), task);
    }
  }

  lemma {:induction false} ChunkStep(id: NodeId, tx: TxSession, dataWorkers: nat, work: seq<Work>, crashes: nat -> bool,
                                     start: Slots, slots: Slots, after: Slots, lo: nat, hi: nat)
    requires Encrypting(id, tx, dataWorkers, work, crashes, start, slots, lo) && lo <= hi <= |work| && |after| == |slots|
    requires forall k | 0 <= k < |work| :: start[work[k].index] == None
    requires forall k | lo <= k < hi :: !Lost(dataWorkers, |work|, k, crashes)
    requires forall k | lo <= k < hi :: after[work[k].index] == Some(Item(id, tx, work[k], false))
    requires forall i | 0 <= i < |slots| && (forall k | lo <= k < hi :: work[k].index != i) :: after[i] == slots[i]
    ensures Encrypting(id, tx, dataWorkers, work, crashes, start, after, hi)
  {
    forall k | 0 <= k < |work| && !(lo <= k < hi) ensures after[work[k].index] == slots[work[k].index] {
    }
  }

  /** Encryption, in one thread or in chunks on blocking tasks of which any may crash. A crash fills
      every slot that is still empty; the healthy tasks after it overwrite theirs. In the end an
      item is lost exactly if its own task crashed, and otherwise holds its own packet. */
  method EncryptWork(c: Config, id: NodeId, tx: TxSession, work: seq<Work>, start: Slots, crashes: nat -> bool)
    returns (slots: Slots)
    requires Apart(work, |start|) && forall k | 0 <= k < |work| :: start[work[k].index] == None
    ensures |slots| == |start|
    ensures forall i | 0 <= i < |start| && start[i].Some? :: slots[i] == start[i]
    ensures forall k | 0 <= k < |work| ::
      slots[work[k].index] == Some(Item(id, tx, work[k], Lost(c.dataWorkers, |work|, k, crashes)))
  {
    slots := start;
    if |work| < PARALLEL_THRESHOLD || c.dataWorkers <= 1 {
      slots := EncryptChunk(id, tx, work, 0, |work|, start);
      ChunkStep(id, tx, c.dataWorkers, work, crashes, start, start, slots, 0, |work|);
      return;
    }
    var chunkSize := ChunkSize(c.dataWorkers, |work|);
    var lo, task := 0, 0;
    while lo < |work|
      invariant lo == task * chunkSize || lo == |work|
      invariant Encrypting(id, tx, c.dataWorkers, work, crashes, start, slots, lo)
      decreases |work| - lo
    {
      var hi := Least(lo + chunkSize, |work|);
      if crashes(task) {
        CrashStep(id, tx, c.dataWorkers, work, crashes, start, slots, lo, hi, task);
        slots := FillEmpty(slots);
      } else {
        var after := EncryptChunk(id, tx, work, lo, hi, slots);
        HealthyChunk(c.dataWorkers, |work|, crashes, lo, hi, task);
        ChunkStep(id, tx, c.dataWorkers, work, crashes, start, slots, after, lo, hi);
        slots := after;
      }
      NextTask(task, chunkSize);
      lo := hi;
      task := task + 1;
    }
  }

  lemma {:induction false} NextTask(task: nat, size: nat)
    ensures task * size + size == (task + 1) * size
  {
  }

  lemma {:induction false} HealthyChunk(dataWorkers: nat, n: nat, crashes: nat -> bool, lo: nat, hi: nat, task: nat)
    requires n > 0 && dataWorkers > 0 && !crashes(task)
    requires lo == task * ChunkSize(dataWorkers, n) && hi <= lo + ChunkSize(dataWorkers, n)
    ensures forall k: nat | lo <= k < hi :: !Lost(dataWorkers, n, k, crashes)
  {
    forall k: nat | lo <= k < hi ensures !Lost(dataWorkers, n, k, crashes) {
      InChunk(k, ChunkSize(dataWorkers, n), task);
    }
  }

  /** The fitting packets with the sequences they were given, in one go, in order. */
  function WorkFor(ips: seq<IpPacket>, indices: seq<nat>, first: nat): (work: seq<Work>)
    requires forall k | 0 <= k < |indices| :: indices[k] < |ips|
    ensures |work| == |indices|
    ensures forall k | 0 <= k < |work| :: work[k] == Work(indices[k], first + k, ips[indices[k]])
  {
    seq(|indices|, k requires 0 <= k < |indices| => Work(indices[k], first + k, ips[indices[k]]))
  }

  lemma {:induction false} WorkIsOpen(c: Config, limit: Option<nat>, ips: seq<IpPacket>, indices: seq<nat>, slots: Slots, work: seq<Work>)
    requires AreFits(c, limit, ips, |ips|, indices) && Screened(c, limit, ips, slots, |ips|)
    requires |work| == |indices| && forall k | 0 <= k < |work| :: work[k].index == indices[k]
    ensures forall k | 0 <= k < |work| :: work[k].index < |slots| && slots[work[k].index] == None
    ensures forall j, k | 0 <= j < k < |work| :: work[j].index != work[k].index
  {
  }

  // ---------------------------------------------------------------- one group

  /** The `i`-th packet of a group is encrypted by a task that crashes. */
  predicate LosesTask(c: Config, peer: Peer, ips: seq<IpPacket>, crashes: nat -> bool, i: nat)
    requires i < |ips|
  {
    && !c.expired && peer.active.Some? && Fits(c, LimitOf(peer), ips[i])
    && Lost(c.dataWorkers, FitCount(c, LimitOf(peer), ips, |ips|), FitCount(c, LimitOf(peer), ips, i), crashes)
  }

  /** What the `i`-th packet of a group gets: its one-at-a-time preparation, unless its own task
      crashes. */
  function OutcomeAt(c: Config, id: NodeId, peer: Peer, ips: seq<IpPacket>, crashes: nat -> bool, i: nat): Preparation
    requires i < |ips|
  {
    if LosesTask(c, peer, ips, crashes, i) then Err(Io) else PreparationAt(c, id, peer, ips, i)
  }

  ghost predicate Outcomes(c: Config, id: NodeId, peer: Peer, ips: seq<IpPacket>, crashes: nat -> bool, results: seq<Preparation>) {
    |results| == |ips| && forall i: nat | i < |ips| :: results[i] == OutcomeAt(c, id, peer, ips, crashes, i)
  }

  lemma {:induction false} SlotsMatch(c: Config, id: NodeId, peer: Peer, ips: seq<IpPacket>, indices: seq<nat>, start: Slots, slots: Slots,
                   crashes: nat -> bool, i: nat)
    requires !c.expired && peer.active.Some? && i < |ips|
    requires AreFits(c, LimitOf(peer), ips, |ips|, indices)
    requires Screened(c, LimitOf(peer), ips, start, |ips|) && |slots| == |start|
    requires forall i | 0 <= i < |start| && start[i].Some? :: slots[i] == start[i]
    requires var work := WorkFor(ips, indices, peer.active.value.txSequence);
      forall k | 0 <= k < |work| ::
        work[k].index < |slots|
        && slots[work[k].index] == Some(Item(id, peer.active.value, work[k], Lost(c.dataWorkers, |work|, k, crashes)))
    ensures slots[i] == Some(OutcomeAt(c, id, peer, ips, crashes, i))
  {
    var tx := peer.active.value;
    var work := WorkFor(ips, indices, tx.txSequence);
    PreparationActive(c, id, peer, ips, i);
    if Fits(c, LimitOf(peer), ips[i]) {
      assert i in indices;
      var k :| 0 <= k < |indices| && indices[k] == i;
      FitCountAt(c, LimitOf(peer), ips, |ips|, indices, k);
      assert work[k] == Work(i, tx.txSequence + k, ips[i]);
    } else {
      assert start[i] == Screen(c, LimitOf(peer), ips[i]);
    }
  }

  function Unwrap(slots: Slots): (results: seq<Preparation>)
    requires forall i | 0 <= i < |slots| :: slots[i].Some?
    ensures |results| == |slots| && forall i | 0 <= i < |slots| :: results[i] == slots[i].value
  {
    seq(|slots|, i requires 0 <= i < |slots| => slots[i].value)
  }

  method QueuePackets(c: Config, ghost id: NodeId, peer: Peer, ips: seq<IpPacket>, valid: seq<nat>, screened: Slots)
    returns (queue: seq<seq<Byte>>, slots: Slots)
    requires !c.expired
    requires peer.active.None?
    requires AreFits(c, None, ips, |ips|, valid) && Screened(c, None, ips, screened, |ips|)
    ensures PeerAfter(c, peer, ips, |ips|) == Peer(None, queue)
    ensures |slots| == |ips| && forall i: nat | i < |ips| :: slots[i] == Some(PreparationAt(c, id, peer, ips, i))
  {
    queue := peer.queue;
    slots := screened;
    ghost var done: nat := 0;
    for k := 0 to |valid|
      invariant |slots| == |ips| && done <= |ips|
      invariant k < |valid| ==> done <= valid[k]
      invariant k > 0 ==> done == valid[k - 1] + 1
      invariant k == 0 ==> done == 0
      invariant PeerAfter(c, peer, ips, done) == Peer(None, queue)
      invariant forall j | 0 <= j < k :: slots[valid[j]] == Some(PreparationAt(c, id, peer, ips, valid[j]))
      invariant forall i | 0 <= i < |ips| && !ConfigFits(c, ips[i]) :: slots[i] == screened[i]
    {
      var index := valid[k];
      NoFitBetween(c, ips, valid, k, done, index);
      NoFitNoChange(c, peer, ips, done, index);
      if |queue| >= c.queueLimit {
        slots := slots[index := Some(Err(QueueFull))];
      } else {
        queue := queue + [ips[index].bytes];
        slots := slots[index := Some(Ok(None))];
      }
      done := index + 1;
    }
    NoFitBetween(c, ips, valid, |valid|, done, |ips|);
    NoFitNoChange(c, peer, ips, done, |ips|);
    AllQueued(c, id, peer, ips, valid, screened, slots);
  }

  lemma {:induction false} AllQueued(c: Config, id: NodeId, peer: Peer, ips: seq<IpPacket>, valid: seq<nat>, screened: Slots, slots: Slots)
    requires !c.expired
    requires AreFits(c, None, ips, |ips|, valid) && Screened(c, None, ips, screened, |ips|) && |slots| == |ips|
    requires forall j | 0 <= j < |valid| :: slots[valid[j]] == Some(PreparationAt(c, id, peer, ips, valid[j]))
    requires forall i | 0 <= i < |ips| && !ConfigFits(c, ips[i]) :: slots[i] == screened[i]
    ensures forall i: nat | i < |ips| :: slots[i] == Some(PreparationAt(c, id, peer, ips, i))
  {
    forall i: nat | i < |ips| ensures slots[i] == Some(PreparationAt(c, id, peer, ips, i)) {
      if ConfigFits(c, ips[i]) {
        assert Fits(c, None, ips[i]) && i in valid;
        var j :| 0 <= j < |valid| && valid[j] == i;
      } else {
        assert screened[i] == Screen(c, None, ips[i]);
      }
    }
  }

  lemma {:induction false} NoFitBetween(c: Config, ips: seq<IpPacket>, valid: seq<nat>, k: nat, a: nat, b: nat)
    requires AreFits(c, None, ips, |ips|, valid) && k <= |valid|
    requires a == if k == 0 then 0 else valid[k - 1] + 1
    requires b == if k == |valid| then |ips| else valid[k]
    ensures a <= b && forall i: nat | a <= i < b :: !ConfigFits(c, ips[i])
  {
    forall i: nat | a <= i < b ensures !ConfigFits(c, ips[i]) {
      forall j | 0 <= j < |valid| ensures valid[j] != i {
        assert j < k ==> valid[j] <= valid[k - 1];
        assert j >= k ==> valid[j] >= valid[k];
      }
      assert i !in valid && (Fits(c, None, ips[i]) <==> ConfigFits(c, ips[i]));
    }
  }

  function Advance(peer: Peer, n: nat): Peer
    requires peer.active.Some?
  {
    peer.(active := Some(peer.active.value.(txSequence := peer.active.value.txSequence + n)))
  }

  lemma {:induction false} AfterBatch(c: Config, peer: Peer, ips: seq<IpPacket>, kept: seq<nat>)
    requires !c.expired
    requires peer.active.Some? && AreFits(c, LimitOf(peer), ips, |ips|, kept)
    ensures PeerAfter(c, peer, ips, |ips|) == Advance(peer, |kept|)
  {
    FitCountAt(c, LimitOf(peer), ips, |ips|, kept, 0);
    SequenceAdvances(c, peer, ips, |ips|);
  }

  method PrepareActive(c: Config, id: NodeId, peer: Peer, ips: seq<IpPacket>, valid: seq<nat>, slots: Slots,
                       crashes: nat -> bool)
    returns (after: Peer, results: seq<Preparation>)
    requires !c.expired && peer.active.Some?
    requires AreFits(c, None, ips, |ips|, valid) && Screened(c, None, ips, slots, |ips|)
    ensures after == PeerAfter(c, peer, ips, |ips|)
    ensures Outcomes(c, id, peer, ips, crashes, results)
  {
    var tx := peer.active.value;
    var kept, screened := ScreenPathMtu(c, ips, tx.confirmedMtu, valid, slots);
    after := Advance(peer, |kept|);
    AfterBatch(c, peer, ips, kept);
    var work := WorkFor(ips, kept, tx.txSequence);
    WorkIsOpen(c, LimitOf(peer), ips, kept, screened, work);
    var filled := EncryptWork(c, id, tx, work, screened, crashes);
    forall i: nat | i < |ips| ensures filled[i] == Some(OutcomeAt(c, id, peer, ips, crashes, i)) {
      SlotsMatch(c, id, peer, ips, kept, screened, filled, crashes, i);
    }
    results := Unwrap(filled);
  }

  /** A group is prepared exactly as if one packet at a time, down to the sequence numbers and the
      queue, except that the packets of a crashed encryption task fail with an I/O error. */
  method PrepareIpPackets(c: Config, id: NodeId, peer: Peer, ips: seq<IpPacket>, crashes: nat -> bool)
    returns (after: Peer, results: seq<Preparation>)
    ensures after == PeerAfter(c, peer, ips, |ips|)
    ensures Outcomes(c, id, peer, ips, crashes, results)
  {
    if ips == [] {
      return peer, [];
    }
    if c.expired {
      ExpiredAll(c, peer, ips, |ips|);
      return Peer(None, []), seq(|ips|, _ => Err(SnapshotExpired));
    }
    var valid, slots := ScreenSizes(c, ips);
    if peer.active.Some? {
      after, results := PrepareActive(c, id, peer, ips, valid, slots, crashes);
    } else {
      var queue;
      queue, slots := QueuePackets(c, id, peer, ips, valid, slots);
      after := Peer(None, queue);
      results := Unwrap(slots);
    }
  }

  lemma {:induction false} ExpiredAll(c: Config, peer: Peer, ips: seq<IpPacket>, n: nat)
    requires c.expired && n <= |ips|
    ensures n > 0 ==> PeerAfter(c, peer, ips, n) == Peer(None, [])
  {
  }
}
