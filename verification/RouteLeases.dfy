/** Reference-counted host routes and the leases that hold them, and how a snapshot is turned
    into routes. Whether the kernel accepts an addition or a deletion is a parameter. */
module RouteLeases {
  import opened Base
  import opened Ip
  import opened Snapshot
  import opened Membership

  datatype Table = Table(owned: map<IpAddr, nat>, kernel: set<IpAddr>)

  function Count(t: Table, k: IpAddr): nat {
    if k in t.owned then t.owned[k] else 0
  }

  /** A route that is already there is not added again, whatever else `willing` says. */
  predicate Adds(t: Table, k: IpAddr, willing: bool) {
    willing && k !in t.kernel
  }

  /** A deletion fails if the kernel refuses it, and also if the route is gone already. */
  predicate Deletes(t: Table, k: IpAddr, willing: bool) {
    willing && k in t.kernel
  }

  predicate ClaimOk(t: Table, k: IpAddr, willing: bool) {
    k in t.owned || Adds(t, k, willing)
  }

  function Claimed(t: Table, k: IpAddr, willing: bool): Table {
    if k in t.owned then t.(owned := t.owned[k := t.owned[k] + 1])
    else if Adds(t, k, willing) then Table(t.owned[k := 1], t.kernel + {k})
    else t
  }

  predicate ReleaseOk(t: Table, k: IpAddr, willing: bool) {
    Count(t, k) > 1 || Deletes(t, k, willing)
  }

  /** The last lease takes the route down; the count goes even when the deletion fails. */
  function Released(t: Table, k: IpAddr, willing: bool): Table {
    if Count(t, k) > 1 then t.(owned := t.owned[k := t.owned[k] - 1])
    else Table(t.owned - {k}, if Deletes(t, k, willing) then t.kernel - {k} else t.kernel)
  }

  /** Counts are positive. */
  ghost predicate Positive(t: Table) {
    forall k | k in t.owned :: t.owned[k] >= 1
  }

  class RouteManager {
    var owned: map<IpAddr, nat>
    var kernel: set<IpAddr>

    function View(): Table
      reads this
    {
      Table(owned, kernel)
    }

    constructor ()
      ensures View() == Table(map[], {})
    {
      owned, kernel := map[], {};
    }

    method ClaimHostRoute(k: IpAddr, willing: bool) returns (ok: bool)
      modifies this
      ensures View() == Claimed(old(View()), k, willing)
      ensures ok == ClaimOk(old(View()), k, willing)
    {
      if k in owned {
        owned := owned[k := owned[k] + 1];
        return true;
      }
      owned := owned[k := 1];
      if !willing || k in kernel {
        owned := owned - {k};
        assert owned == old(owned);
        return false;
      }
      kernel := kernel + {k};
      return true;
    }

    method Release(k: IpAddr, willing: bool) returns (ok: bool)
      modifies this
      ensures View() == Released(old(View()), k, willing)
      ensures ok == ReleaseOk(old(View()), k, willing)
    {
      if k in owned && owned[k] > 1 {
        owned := owned[k := owned[k] - 1];
        return true;
      }
      ok := willing && k in kernel;
      if ok { kernel := kernel - {k}; }
      owned := owned - {k};
    }
  }

  // ---------------------------------------------------------------- leases over whole runs

  /** The manager with the leases that are held, those dropped whose release has yet to run, and
      the second releases left behind by leases whose first one failed. */
  datatype System = System(table: Table, held: multiset<IpAddr>, queued: multiset<IpAddr>, stray: multiset<IpAddr>)

  /** `willing` is the kernel's answer as far as the route itself allows one; `Vanish` is a route
      that someone else takes down, as when the interface loses its addresses. */
  datatype Step =
    | Claim(k: IpAddr, willing: bool)
    | ReleaseLease(k: IpAddr, willing: bool)
    | DropLease(k: IpAddr)
    | RunQueued(k: IpAddr, willing: bool)
    | RunStray(k: IpAddr, willing: bool)
    | Vanish(k: IpAddr)

  const EMPTY := System(Table(map[], {}), multiset{}, multiset{}, multiset{})

  function Apply(s: System, step: Step): System {
    match step
    case Claim(k, willing) =>
      s.(table := Claimed(s.table, k, willing), held := if ClaimOk(s.table, k, willing) then s.held + multiset{k} else s.held)
    case ReleaseLease(k, willing) =>
      if k !in s.held then s
      else
        System(Released(s.table, k, willing), s.held - multiset{k}, s.queued,
               if ReleaseOk(s.table, k, willing) then s.stray else s.stray + multiset{k})
    case DropLease(k) =>
      if k !in s.held then s else s.(held := s.held - multiset{k}, queued := s.queued + multiset{k})
    case RunQueued(k, willing) =>
      if k !in s.queued then s else s.(table := Released(s.table, k, willing), queued := s.queued - multiset{k})
    case RunStray(k, willing) =>
      if k !in s.stray then s else s.(table := Released(s.table, k, willing), stray := s.stray - multiset{k})
    case Vanish(k) => s.(table := s.table.(kernel := s.table.kernel - {k}))
  }

  function Exec(run: seq<Step>): System {
    if run == [] then EMPTY else Apply(Exec(run[..|run| - 1]), run[|run| - 1])
  }

  /** The count of every route is the number of its live leases. */
  ghost predicate Counted(s: System) {
    forall k :: Live(s, k)
  }

  predicate Live(s: System, k: IpAddr) {
    Count(s.table, k) == s.held[k] + s.queued[k]
  }

  /** The step is a second release that finds the route counted for someone else. */
  predicate Steals(s: System, step: Step) {
    step.RunStray? && step.k in s.stray && step.k in s.table.owned
  }

  lemma {:induction false} ClaimPositive(t: Table, k: IpAddr, willing: bool)
    requires Positive(t)
    ensures Positive(Claimed(t, k, willing))
  {
  }

  lemma {:induction false} ReleasePositive(t: Table, k: IpAddr, willing: bool)
    requires Positive(t)
    ensures Positive(Released(t, k, willing))
  {
  }

  lemma {:induction false} RunPositive(run: seq<Step>)
    ensures Positive(Exec(run).table)
  {
    if run != [] {
      RunPositive(run[..|run| - 1]);
      var s := Exec(run[..|run| - 1]);
      match run[|run| - 1]
      case Claim(k, willing) => ClaimPositive(s.table, k, willing);
      case DropLease(k) =>
      case Vanish(k) =>
      case ReleaseLease(k, willing) => ReleasePositive(s.table, k, willing);
      case RunQueued(k, willing) => ReleasePositive(s.table, k, willing);
      case RunStray(k, willing) => ReleasePositive(s.table, k, willing);
    }
  }

  /** What a release does to the count, whatever becomes of the route. */
  lemma {:induction false} ReleaseCounts(t: Table, k: IpAddr, willing: bool, x: IpAddr)
    requires Positive(t)
    ensures Count(Released(t, k, willing), x) == if x == k && k in t.owned then Count(t, x) - 1 else Count(t, x)
  {
  }

  lemma {:induction false} ClaimCounts(t: Table, k: IpAddr, willing: bool, x: IpAddr)
    ensures Count(Claimed(t, k, willing), x) == if x == k && ClaimOk(t, k, willing) then Count(t, x) + 1 else Count(t, x)
  {
  }

  lemma {:induction false} StepCounted(s: System, step: Step, x: IpAddr)
    requires Positive(s.table) && Live(s, x) && Live(s, step.k) && !Steals(s, step)
    ensures Live(Apply(s, step), x)
  {
    match step
    case Claim(k, willing) => ClaimCounts(s.table, k, willing, x);
    case DropLease(k) =>
    case Vanish(k) =>
    case ReleaseLease(k, willing) => ReleaseCounts(s.table, k, willing, x);
    case RunQueued(k, willing) => ReleaseCounts(s.table, k, willing, x);
    case RunStray(k, willing) => ReleaseCounts(s.table, k, willing, x);
  }

  lemma {:induction false} StepCountedExactly(s: System, step: Step)
    requires Positive(s.table) && Counted(s)
    ensures Counted(Apply(s, step)) <==> !Steals(s, step)
  {
    var s' := Apply(s, step);
    if Steals(s, step) {
      assert Live(s, step.k);
      ReleaseCounts(s.table, step.k, step.willing, step.k);
      assert !Live(s', step.k);
    } else {
      forall x ensures Live(s', x) {
        assert Live(s, x) && Live(s, step.k);
        StepCounted(s, step, x);
      }
    }
  }

  ghost predicate AlwaysCounted(run: seq<Step>) {
    Counted(Exec(run)) && (run == [] || AlwaysCounted(run[..|run| - 1]))
  }

  predicate NeverSteals(run: seq<Step>) {
    run == [] || (NeverSteals(run[..|run| - 1]) && !Steals(Exec(run[..|run| - 1]), run[|run| - 1]))
  }

  /** Counts equal live leases throughout a run exactly when no second release ever finds its
      route claimed again. */
  lemma {:induction false} CountedExactly(run: seq<Step>)
    ensures AlwaysCounted(run) <==> NeverSteals(run)
  {
    if run != [] {
      var init, last := run[..|run| - 1], run[|run| - 1];
      CountedExactly(init);
      RunPositive(init);
      if AlwaysCounted(init) {
        assert Counted(Exec(init));
        StepCountedExactly(Exec(init), last);
      }
    }
  }

  // Without routes that vanish, a failed release leaves the route in the kernel, where it keeps
  // the route from being claimed again until the second release has run.

  predicate NothingVanishes(run: seq<Step>) {
    forall i | 0 <= i < |run| :: !run[i].Vanish?
  }

  ghost predicate Guarded(s: System) {
    && (forall k | k in s.table.owned :: k in s.table.kernel)
    && (forall k | k in s.stray :: k in s.table.kernel && k !in s.table.owned && s.stray[k] == 1)
  }

  lemma {:induction false} StepGuarded(s: System, step: Step)
    requires Positive(s.table) && Counted(s) && Guarded(s) && !step.Vanish?
    ensures Guarded(Apply(s, step)) && !Steals(s, step)
  {
    assert Live(s, step.k);
  }

  lemma {:induction false} RunGuarded(run: seq<Step>)
    requires NothingVanishes(run)
    ensures Guarded(Exec(run)) && Counted(Exec(run)) && NeverSteals(run)
  {
    if run != [] {
      var init, last := run[..|run| - 1], run[|run| - 1];
      RunGuarded(init);
      RunPositive(init);
      assert !last.Vanish?;
      StepGuarded(Exec(init), last);
      StepCountedExactly(Exec(init), last);
    }
  }

  /** As long as no route vanishes by itself, counts are live leases and every counted route is
      installed, whatever additions and deletions the kernel refuses. */
  lemma {:induction false} CountsSurviveRefusals(run: seq<Step>)
    requires NothingVanishes(run)
    ensures AlwaysCounted(run)
    ensures forall k :: Exec(run).held[k] + Exec(run).queued[k] > 0 ==> k in Exec(run).table.kernel
  {
    RunGuarded(run);
    CountedExactly(run);
    forall k | Exec(run).held[k] + Exec(run).queued[k] > 0 ensures k in Exec(run).table.kernel {
      assert Live(Exec(run), k);
    }
  }

  predicate Willing(step: Step) {
    step.ReleaseLease? || step.RunQueued? || step.RunStray? ==> step.willing
  }

  predicate DeletionsSucceed(run: seq<Step>) {
    NothingVanishes(run) && forall i | 0 <= i < |run| :: Willing(run[i])
  }

  /** Nothing left behind: the routes installed are exactly the counted ones. */
  predicate Tidy(s: System) {
    s.stray == multiset{} && s.table.kernel == s.table.owned.Keys
  }

  lemma {:induction false} StepTidy(s: System, step: Step)
    requires Tidy(s) && Counted(s) && Willing(step) && !step.Vanish?
    ensures Tidy(Apply(s, step))
  {
    if step.ReleaseLease? || step.RunQueued? {
      assert Live(s, step.k);
    }
  }

  lemma {:induction false} RunTidy(run: seq<Step>)
    requires DeletionsSucceed(run)
    ensures Tidy(Exec(run))
  {
    if run != [] {
      var init := run[..|run| - 1];
      RunTidy(init);
      RunGuarded(init);
      assert Willing(run[|run| - 1]) && !run[|run| - 1].Vanish?;
      StepTidy(Exec(init), run[|run| - 1]);
    }
  }

  /** When every deletion succeeds, whatever additions fail, a route is installed exactly while a
      lease of it is live. */
  lemma {:induction false} DeletionsKeepCounts(run: seq<Step>)
    requires DeletionsSucceed(run)
    ensures Counted(Exec(run))
    ensures forall k :: k in Exec(run).table.kernel <==> Exec(run).held[k] + Exec(run).queued[k] > 0
  {
    RunTidy(run);
    RunGuarded(run);
    RunPositive(run);
    var s := Exec(run);
    forall k ensures k in s.table.kernel <==> s.held[k] + s.queued[k] > 0 {
      assert Live(s, k) && (k in s.table.owned <==> Count(s.table, k) > 0);
    }
  }

  /** A route that vanished makes the release of its lease fail; the second release it leaves behind
      can then take down the route of a lease claimed in between. */
  lemma {:induction false} FailedDeletionCanSteal(k: IpAddr)
    ensures var run := [Claim(k, true), Vanish(k), ReleaseLease(k, true), Claim(k, true), RunStray(k, true)];
      Exec(run).held == multiset{k} && k !in Exec(run).table.kernel && k !in Exec(run).table.owned
  {
    var a, b, c, d, e := Claim(k, true), Vanish(k), ReleaseLease(k, true), Claim(k, true), RunStray(k, true);
    assert [a, b, c, d, e][..4] == [a, b, c, d] && [a, b, c, d][..3] == [a, b, c] && [a, b, c][..2] == [a, b] && [a, b][..1] == [a];
    assert Exec([a]) == System(Table(map[k := 1], {k}), multiset{k}, multiset{}, multiset{});
    assert Exec([a, b]) == System(Table(map[k := 1], {}), multiset{k}, multiset{}, multiset{});
    assert Exec([a, b, c]) == System(Table(map[], {}), multiset{}, multiset{}, multiset{k});
    assert Exec([a, b, c, d]) == System(Table(map[k := 1], {k}), multiset{k}, multiset{}, multiset{k});
    assert Exec([a, b, c, d, e]) == Apply(Exec([a, b, c, d]), e);
  }

  // ---------------------------------------------------------------- snapshots to routes

  /** A remote member of the snapshot has this address, online or not. */
  ghost predicate Wants(s: NetworkSnapshot, me: Key32, a: IpAddr) {
    exists n | n in Members(s) && n != me :: Owns(Members(s)[n], a)
  }

  ghost predicate WantsUpTo(s: NetworkSnapshot, me: Key32, n: nat, a: IpAddr)
    requires n <= |s.peers|
  {
    exists i | 0 <= i < n :: s.peers[i].nodeId != me && Owns(s.peers[i], a)
  }

  lemma {:induction false} WantsAll(s: NetworkSnapshot, me: Key32, a: IpAddr)
    requires DistinctPeers(s.peers)
    ensures WantsUpTo(s, me, |s.peers|, a) <==> Wants(s, me, a)
  {
    if i :| 0 <= i < |s.peers| && s.peers[i].nodeId != me && Owns(s.peers[i], a) {
      ListingAt(s.peers, |s.peers|, i);
      var n := s.peers[i].nodeId;
      assert n in Members(s) && Owns(Members(s)[n], a);
    }
    if n :| n in Members(s) && n != me && Owns(Members(s)[n], a) {
      var i := ListingIn(s.peers, |s.peers|, n);
    }
  }

  method SnapshotRouteAddresses(hash: Hash, s: NetworkSnapshot, me: Key32) returns (r: Result<seq<IpAddr>, Defect>)
    ensures r.Ok? <==> Snapshot.Valid(hash, s)
    ensures r.Ok? ==> forall a :: a in r.value <==> Wants(s, me, a)
  {
    var defect := Validate(hash, s);
    if defect.Some? { return Err(defect.value); }
    var addresses: seq<IpAddr> := [];
    for i := 0 to |s.peers|
      invariant forall a :: a in addresses <==> WantsUpTo(s, me, i, a)
    {
      var peer := s.peers[i];
      ghost var before := addresses;
      if peer.nodeId != me {
        addresses := addresses + Addresses(peer);
      }
      forall a ensures a in addresses <==> WantsUpTo(s, me, i + 1, a) {
        OwnsAddresses(peer, a);
        WantsMore(s, me, i, a);
      }
    }
    forall a ensures a in addresses <==> Wants(s, me, a) {
      WantsAll(s, me, a);
    }
    return Ok(addresses);
  }

  lemma {:induction false} WantsMore(s: NetworkSnapshot, me: Key32, i: nat, a: IpAddr)
    requires i < |s.peers|
    ensures WantsUpTo(s, me, i + 1, a) <==> WantsUpTo(s, me, i, a) || (s.peers[i].nodeId != me && Owns(s.peers[i], a))
  {
  }

  /** The leases of others: what the counts hold beyond this holder's leases. */
  function Others(t: Table, leases: set<IpAddr>, k: IpAddr): int {
    Count(t, k) - if k in leases then 1 else 0
  }

  /** The holder's leases are counted, once each. */
  ghost predicate Holds(t: Table, leases: set<IpAddr>) {
    Positive(t) && forall k | k in leases :: k in t.owned
  }

  ghost predicate SameOthers(t: Table, leases: set<IpAddr>, t': Table, leases': set<IpAddr>) {
    forall k :: Others(t', leases', k) == Others(t, leases, k)
  }

  /** Where the claiming loop stands when `missing` is still to do. */
  ghost predicate Claiming(t0: Table, leases: set<IpAddr>, desired: set<IpAddr>, added: IpAddr -> bool,
                           t: Table, leases': set<IpAddr>, missing: set<IpAddr>) {
    && missing <= desired - leases && leases' == leases + (desired - missing)
    && Holds(t, leases') && SameOthers(t0, leases, t, leases')
    && (forall a | a in missing :: (a in t.owned <==> a in t0.owned) && (a in t.kernel <==> a in t0.kernel))
    && (forall a | a in leases :: a in t.kernel <==> a in t0.kernel)
    && (forall a | a in desired && a !in leases && a !in missing :: ClaimOk(t0, a, added(a)))
    && (t0.kernel == t0.owned.Keys ==> t.kernel == t.owned.Keys)
  }

  lemma {:induction false} ClaimKeepsHolding(t: Table, leases: set<IpAddr>, a: IpAddr, added: bool)
    requires Holds(t, leases) && a !in leases && ClaimOk(t, a, added)
    ensures Holds(Claimed(t, a, added), leases + {a}) && SameOthers(t, leases, Claimed(t, a, added), leases + {a})
    ensures t.kernel == t.owned.Keys ==> Claimed(t, a, added).kernel == Claimed(t, a, added).owned.Keys
  {
  }

  lemma {:induction false} ClaimStep(t0: Table, leases: set<IpAddr>, desired: set<IpAddr>, added: IpAddr -> bool,
                  t: Table, leases': set<IpAddr>, missing: set<IpAddr>, a: IpAddr)
    requires Claiming(t0, leases, desired, added, t, leases', missing) && a in missing
    ensures ClaimOk(t, a, added(a)) <==> ClaimOk(t0, a, added(a))
    ensures ClaimOk(t, a, added(a)) ==>
      Claiming(t0, leases, desired, added, Claimed(t, a, added(a)), leases' + {a}, missing - {a})
  {
    if ClaimOk(t, a, added(a)) {
      ClaimKeepsHolding(t, leases', a, added(a));
      assert leases' + {a} == leases + (desired - (missing - {a}));
      forall k ensures Others(Claimed(t, a, added(a)), leases' + {a}, k) == Others(t0, leases, k) {}
    }
  }

  /** Claims the missing routes, stopping at the first the kernel refuses. */
  method ClaimMissing(routes: RouteManager, leases: set<IpAddr>, desired: set<IpAddr>, added: IpAddr -> bool)
    returns (ok: bool, leases': set<IpAddr>, ghost left: set<IpAddr>)
    requires Holds(routes.View(), leases)
    modifies routes
    ensures Claiming(old(routes.View()), leases, desired, added, routes.View(), leases', left)
    ensures if ok then left == {} else exists a | a in left :: !ClaimOk(old(routes.View()), a, added(a))
  {
    leases' := leases;
    var missing := desired - leases;
    assert leases == leases + (desired - missing);
    while missing != {}
      invariant Claiming(old(routes.View()), leases, desired, added, routes.View(), leases', missing)
      decreases |missing|
    {
      var a :| a in missing;
      ClaimStep(old(routes.View()), leases, desired, added, routes.View(), leases', missing, a);
      var claimed := routes.ClaimHostRoute(a, added(a));
      if !claimed {
        return false, leases', missing;
      }
      leases' := leases' + {a};
      missing := missing - {a};
    }
    return true, leases', {};
  }

  /** Where the releasing loop stands when `stale` is still to do. */
  ghost predicate Releasing(t0: Table, leases: set<IpAddr>, desired: set<IpAddr>, deleted: IpAddr -> bool,
                            t: Table, leases': set<IpAddr>, stale: set<IpAddr>, strays: set<IpAddr>) {
    && stale <= leases - desired && leases' == leases * desired + stale
    && Holds(t, leases') && SameOthers(t0, leases, t, leases')
    && (forall k | k in stale :: k in t.kernel <==> k in t0.kernel)
    && (forall k | k in strays :: k in leases && k !in desired && !Deletes(t0, k, deleted(k)))
    && (strays == {} && t0.kernel == t0.owned.Keys ==> t.kernel == t.owned.Keys)
  }

  lemma {:induction false} ReleaseStep(t0: Table, leases: set<IpAddr>, desired: set<IpAddr>, deleted: IpAddr -> bool,
                    t: Table, leases': set<IpAddr>, stale: set<IpAddr>, strays: set<IpAddr>, k: IpAddr)
    requires Releasing(t0, leases, desired, deleted, t, leases', stale, strays) && k in stale
    ensures Releasing(t0, leases, desired, deleted, Released(t, k, deleted(k)), leases' - {k}, stale - {k},
                      if ReleaseOk(t, k, deleted(k)) then strays else strays + {k})
  {
  }

  /** Releases the leases no longer desired; failures are ignored here and leave strays. */
  method ReleaseStale(routes: RouteManager, leases: set<IpAddr>, desired: set<IpAddr>, deleted: IpAddr -> bool)
    returns (leases': set<IpAddr>, strays: set<IpAddr>)
    requires Holds(routes.View(), leases)
    modifies routes
    ensures Releasing(old(routes.View()), leases, desired, deleted, routes.View(), leases', {}, strays)
  {
    leases', strays := leases, {};
    var stale := leases - desired;
    assert leases == leases * desired + stale;
    while stale != {}
      invariant Releasing(old(routes.View()), leases, desired, deleted, routes.View(), leases', stale, strays)
      decreases |stale|
    {
      var k :| k in stale;
      ReleaseStep(old(routes.View()), leases, desired, deleted, routes.View(), leases', stale, strays, k);
      var ok := routes.Release(k, deleted(k));
      strays := if ok then strays else strays + {k};
      leases' := leases' - {k};
      stale := stale - {k};
    }
  }

  /** What `localOk` says of the addresses this node must put on its interface. */
  predicate LocalAccepted(s: NetworkSnapshot, local: PeerInfo, localOk: IpAddr -> bool) {
    && (local.ipv4.Some? && s.ipv4.Some? ==> localOk(V4(local.ipv4.value)))
    && (local.ipv6.Some? && s.ipv6.Some? ==> localOk(V6(local.ipv6.value)))
  }

  /** Brings the routes in line with a snapshot. On success this holder's leases are exactly the
      addresses of the remote members; whatever happens, nobody else's count changes, and with no
      stray left behind the installed routes are the counted ones if they were before. */
  method ApplyTunSnapshot(hash: Hash, s: NetworkSnapshot, me: Key32, routes: RouteManager, leases: set<IpAddr>,
                          localOk: IpAddr -> bool, added: IpAddr -> bool, deleted: IpAddr -> bool)
    returns (ok: bool, leases': set<IpAddr>, strays: set<IpAddr>)
    requires Holds(routes.View(), leases)
    modifies routes
    ensures Holds(routes.View(), leases') && SameOthers(old(routes.View()), leases, routes.View(), leases')
    ensures ok <==>
      && Snapshot.Valid(hash, s) && me in Members(s) && LocalAccepted(s, Members(s)[me], localOk)
      && forall a | Wants(s, me, a) && a !in leases :: ClaimOk(old(routes.View()), a, added(a))
    ensures ok ==> forall a :: a in leases' <==> Wants(s, me, a)
    ensures !ok ==> leases <= leases' && strays == {} && forall a | a in leases' - leases :: Wants(s, me, a)
    ensures forall k | k in strays :: k in leases && k !in leases' && !Deletes(old(routes.View()), k, deleted(k))
    ensures strays == {} && old(routes.kernel) == old(routes.owned).Keys ==> routes.kernel == routes.owned.Keys
  {
    leases', strays := leases, {};
    var local := FindLocal(hash, s, me);
    if local.None? || !LocalAccepted(s, local.value, localOk) {
      return false, leases, {};
    }
    var addresses := SnapshotRouteAddresses(hash, s, me);
    var desired := set a | a in addresses.value;
    ghost var left, t0 := {}, routes.View();
    ok, leases', left := ClaimMissing(routes, leases, desired, added);
    if !ok {
      return;
    }
    ghost var t1, held := routes.View(), leases';
    leases', strays := ReleaseStale(routes, leases', desired, deleted);
    forall k ensures Others(routes.View(), leases', k) == Others(t0, leases, k) {
      assert Others(t1, held, k) == Others(t0, leases, k);
    }
  }

  method FindLocal(hash: Hash, s: NetworkSnapshot, me: Key32) returns (r: Option<PeerInfo>)
    ensures r.Some? <==> Snapshot.Valid(hash, s) && me in Members(s)
    ensures r.Some? ==> r.value == Members(s)[me]
  {
    var defect := Validate(hash, s);
    if defect.Some? { return None; }
    for i := 0 to |s.peers|
      invariant forall k | 0 <= k < i :: s.peers[k].nodeId != me
    {
      if s.peers[i].nodeId == me {
        ListingAt(s.peers, |s.peers|, i);
        return Some(s.peers[i]);
      }
    }
    NotListed(s.peers, |s.peers|, me);
    return None;
  }

  // ---------------------------------------------------------------- one snapshot after the other

  /** One snapshot as it is applied, with the kernel's answers. */
  datatype Round = Round(snapshot: NetworkSnapshot, localOk: IpAddr -> bool, added: IpAddr -> bool, deleted: IpAddr -> bool)

  /** A sole holder's state: one count per lease, and exactly the leased routes installed. */
  ghost predicate Alone(t: Table, leases: set<IpAddr>) {
    t.owned.Keys == leases && t.kernel == leases && forall k | k in leases :: t.owned[k] == 1
  }

  lemma {:induction false} AloneStays(t: Table, leases: set<IpAddr>, t': Table, leases': set<IpAddr>)
    requires Alone(t, leases) && Holds(t', leases') && SameOthers(t, leases, t', leases') && t'.kernel == t'.owned.Keys
    ensures Alone(t', leases')
  {
    forall k ensures Count(t', k) == (if k in leases' then 1 else 0) {
      assert Others(t', leases', k) == Others(t, leases, k);
      assert k in t.owned <==> k in leases;
    }
    forall k ensures k in t'.owned <==> k in leases' {
      assert Count(t', k) == (if k in leases' then 1 else 0);
    }
  }

  /** Over any sequence of snapshots, accepted or not, whatever additions fail, if deletions do not:
      every lease is counted once, exactly the leased routes are installed, and after a round that
      succeeds those are exactly the addresses of its remote members, online or not. */
  method ApplyAll(hash: Hash, me: Key32, routes: RouteManager, rounds: seq<Round>) returns (leases: set<IpAddr>, oks: seq<bool>)
    requires routes.View() == Table(map[], {})
    requires forall i, k | 0 <= i < |rounds| :: rounds[i].deleted(k)
    modifies routes
    ensures Alone(routes.View(), leases) && |oks| == |rounds|
    ensures rounds != [] && oks[|rounds| - 1] ==> forall a :: a in routes.kernel <==> Wants(rounds[|rounds| - 1].snapshot, me, a)
  {
    leases, oks := {}, [];
    for i := 0 to |rounds|
      invariant Alone(routes.View(), leases) && |oks| == i
      invariant i > 0 && oks[i - 1] ==> forall a :: a in leases <==> Wants(rounds[i - 1].snapshot, me, a)
    {
      var r := rounds[i];
      ghost var t, before := routes.View(), leases;
      var ok, after, strays := ApplyTunSnapshot(hash, r.snapshot, me, routes, leases, r.localOk, r.added, r.deleted);
      assert forall k | k in before :: Deletes(t, k, r.deleted(k));
      assert strays == {};
      AloneStays(t, before, routes.View(), after);
      leases, oks := after, oks + [ok];
    }
  }
}
