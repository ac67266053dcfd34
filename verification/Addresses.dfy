/** Virtual IPv4 addresses: the coordinator's cyclic search for a free host, and the start-up
    migration that repairs the stored column. The digest that picks where a node's search
    begins is a parameter. */
module Addresses {
  import opened Base
  import opened BigEndian
  import opened Word64

  const BASE: nat := 0x0AFE_0000
  const HOSTS: nat := 65534

  type Octets = o: seq<Byte> | |o| == 4 witness [0, 0, 0, 0]
  type Id = seq<Byte>

  /** A row of the peers table: the key and the address column as stored, whatever its length. */
  datatype Row = Row(id: Id, stored: Option<seq<Byte>>)

  datatype Error = InvalidPeer | AddressPoolExhausted

  function HostOf(address: nat): Option<nat> {
    if address < BASE then None
    else if 1 <= address - BASE <= HOSTS then Some(address - BASE)
    else None
  }

  /** The host a stored column names, if it is four octets inside the pool. */
  function Wanted(row: Row): Option<nat> {
    if row.stored.Some? && |row.stored.value| == 4 then HostOf(Number(row.stored.value)) else None
  }

  function AddressOf(host: nat): Octets {
    Be(BASE + host, 4)
  }

  /** A host written as octets is read back as that host. */
  lemma {:induction false} ColumnRoundTrip(id: Id, host: nat)
    requires 1 <= host <= HOSTS
    ensures Wanted(Row(id, Some(AddressOf(host)))) == Some(host)
  {
    Pow2At32();
    NumberOfBe(BASE + host, 4);
  }

  /** Two columns with the same host hold the same octets. */
  lemma {:induction false} ColumnsWithSameHost(row: Row)
    requires Wanted(row).Some?
    ensures row.stored == Some(AddressOf(Wanted(row).value))
  {
    BeOfNumber(row.stored.value);
  }

  // ---------------------------------------------------------------- cyclic search

  function HostAt(start: nat, offset: nat): nat {
    1 + (start + offset) % HOSTS
  }

  /** Going once round from anywhere meets every host of the pool. */
  lemma {:induction false} RoundMeetsEveryHost(start: nat, host: nat) returns (offset: nat)
    requires 1 <= host <= HOSTS && start < HOSTS
    ensures offset < HOSTS && HostAt(start, offset) == host
  {
    offset := if start <= host - 1 then host - 1 - start else host - 1 + HOSTS - start;
  }

  /** `host` is the first host from `start` on, going round, that is not used. */
  ghost predicate IsFirstFree(start: nat, used: set<nat>, host: nat) {
    exists offset: nat | offset < HOSTS ::
      && HostAt(start, offset) == host && host !in used
      && forall o: nat | o < offset :: HostAt(start, o) in used
  }

  ghost predicate Full(used: set<nat>) {
    forall h: nat | 1 <= h <= HOSTS :: h in used
  }

  /** The search takes the first free host and marks it, or fails exactly when none is free. */
  method AllocateFromUsed(start: nat, used: set<nat>) returns (host: Result<nat, Error>, used': set<nat>)
    requires start < HOSTS
    ensures host.Ok? ==> 1 <= host.value <= HOSTS && IsFirstFree(start, used, host.value) && used' == used + {host.value}
    ensures host.Err? ==> Full(used) && host.error == AddressPoolExhausted && used' == used
  {
    for offset := 0 to HOSTS
      invariant forall o: nat | o < offset :: HostAt(start, o) in used
    {
      var h := HostAt(start, offset);
      if h !in used {
        return Ok(h), used + {h};
      }
    }
    forall h: nat | 1 <= h <= HOSTS ensures h in used {
      var offset := RoundMeetsEveryHost(start, h);
    }
    return Err(AddressPoolExhausted), used;
  }

  lemma {:induction false} FirstFreeUnique(start: nat, used: set<nat>, a: nat, b: nat)
    requires IsFirstFree(start, used, a) && IsFirstFree(start, used, b)
    ensures a == b
  {
  }

  /** The hosts 1 to `n`. */
  ghost function Pool(n: nat): (pool: set<nat>)
    ensures forall h: nat :: h in pool <==> 1 <= h <= n
    ensures |pool| == n
  {
    if n == 0 then {} else Pool(n - 1) + {n}
  }

  /** A set of hosts with room left has a free one. */
  lemma {:induction false} RoomLeft(used: set<nat>)
    requires |used| < HOSTS
    ensures !Full(used)
  {
    if Full(used) {
      Subset(Pool(HOSTS), used);
    }
  }

  lemma {:induction false} Subset(a: set<nat>, b: set<nat>)
    requires a <= b
    ensures |a| <= |b|
  {
    if a != {} {
      var x :| x in a;
      Subset(a - {x}, b - {x});
    }
  }

  /** Hosts among `n` are no more than `n`, and as many as `n` are all of them. */
  lemma {:induction false} AllOf(used: set<nat>, n: nat)
    requires forall h | h in used :: 1 <= h <= n
    ensures |used| <= n
    ensures |used| == n ==> forall h: nat | 1 <= h <= n :: h in used
  {
    Subset(used, Pool(n));
    if h: nat :| |used| == n && 1 <= h <= n && h !in used {
      Subset(used + {h}, Pool(n));
    }
  }

  // ---------------------------------------------------------------- migration

  type Digest = Id -> nat

  function Start(digest: Digest, id: Id): nat {
    digest(id) % HOSTS
  }

  function Taken(hosts: seq<nat>): set<nat> {
    set h | h in hosts
  }

  /** A row keeps its stored host when the column is valid and no earlier row ended up there. */
  predicate Keeps(row: Row, earlier: seq<nat>) {
    Wanted(row).Some? && Wanted(row).value !in earlier
  }

  /** `hosts` are hosts the rows may end up with, decided from the first row on. */
  ghost predicate Assigns(digest: Digest, rows: seq<Row>, hosts: seq<nat>) {
    && |hosts| <= |rows|
    && forall i: nat | i < |hosts| :: AssignedAt(digest, rows[i], hosts[..i], hosts[i])
  }

  ghost predicate AssignedAt(digest: Digest, row: Row, earlier: seq<nat>, host: nat) {
    && 1 <= host <= HOSTS
    && if Keeps(row, earlier) then host == Wanted(row).value
       else |row.id| == 32 && IsFirstFree(Start(digest, row.id), Taken(earlier), host)
  }

  predicate Distinct(hosts: seq<nat>) {
    forall i, j | 0 <= i < j < |hosts| :: hosts[i] != hosts[j]
  }

  predicate DistinctIds(rows: seq<Row>) {
    forall i, j | 0 <= i < j < |rows| :: rows[i].id != rows[j].id
  }

  lemma {:induction false} AssignsDistinct(digest: Digest, rows: seq<Row>, hosts: seq<nat>)
    requires Assigns(digest, rows, hosts)
    ensures Distinct(hosts)
    ensures forall h | h in hosts :: 1 <= h <= HOSTS
  {
  }

  lemma {:induction false} DistinctCount(hosts: seq<nat>)
    requires Distinct(hosts)
    ensures |Taken(hosts)| == |hosts|
  {
    if hosts != [] {
      var init, last := hosts[..|hosts| - 1], hosts[|hosts| - 1];
      DistinctCount(init);
      assert hosts == init + [last];
      assert Taken(hosts) == Taken(init) + {last};
    }
  }

  /** What the table holds once every row has its host. */
  function Settled(row: Row, host: nat): Row {
    if Wanted(row) == Some(host) then row else Row(row.id, Some(AddressOf(host)))
  }

  function SettledAll(rows: seq<Row>, hosts: seq<nat>): seq<Row>
    requires |hosts| <= |rows|
  {
    seq(|rows|, i requires 0 <= i < |rows| => if i < |hosts| then Settled(rows[i], hosts[i]) else rows[i])
  }

  /** The error the first row that cannot be given a host raises. */
  ghost predicate FailsAt(digest: Digest, rows: seq<Row>, hosts: seq<nat>, error: Error) {
    && |hosts| < |rows| && Assigns(digest, rows, hosts) && !Keeps(rows[|hosts|], hosts)
    && match error
       case InvalidPeer => |rows[|hosts|].id| != 32
       case AddressPoolExhausted => |rows[|hosts|].id| == 32 && Full(Taken(hosts))
  }

  datatype Update = Update(id: Id, address: Octets)

  function Updated(row: Row, updates: seq<Update>): Row {
    if updates == [] then row
    else
      var u, before := updates[|updates| - 1], Updated(row, updates[..|updates| - 1]);
      if u.id == row.id then Row(row.id, Some(u.address)) else before
  }

  lemma {:induction false} UpdatedOther(row: Row, updates: seq<Update>)
    requires forall u | u in updates :: u.id != row.id
    ensures Updated(row, updates) == row
  {
    if updates != [] {
      UpdatedOther(row, updates[..|updates| - 1]);
    }
  }

  class PeerTable {
    /** The rows in the order of their primary key. */
    var rows: seq<Row>

    ghost predicate Valid()
      reads this
    {
      DistinctIds(rows)
    }

    /** A free address for a new node, in the order of its search; fails only when all are stored. */
    method AllocateVirtualIpv4(digest: Digest, id: Id) returns (address: Result<Octets, Error>)
      ensures address.Ok? ==>
        exists host | 1 <= host <= HOSTS ::
          address.value == AddressOf(host) && IsFirstFree(Start(digest, id), StoredHosts(rows), host)
      ensures address.Err? <==> Full(StoredHosts(rows))
    {
      var start := Start(digest, id);
      for offset := 0 to HOSTS
        invariant forall o: nat | o < offset :: HostAt(start, o) in StoredHosts(rows)
      {
        var host := HostAt(start, offset);
        var isUsed := Stores(rows, AddressOf(host));
        StoresHost(rows, host);
        if !isUsed {
          return Ok(AddressOf(host));
        }
      }
      forall h: nat | 1 <= h <= HOSTS ensures h in StoredHosts(rows) {
        var offset := RoundMeetsEveryHost(start, h);
      }
      return Err(AddressPoolExhausted);
    }

    /** Gives every row a host of its own, or changes nothing and says which row could not have one. */
    method MigrateVirtualIpv4(digest: Digest) returns (error: Option<Error>, ghost hosts: seq<nat>)
      requires Valid()
      modifies this
      ensures Valid()
      ensures error.None? ==> |hosts| == |rows| && Assigns(digest, old(rows), hosts) && rows == SettledAll(old(rows), hosts)
      ensures error.Some? ==> FailsAt(digest, rows, hosts, error.value) && rows == old(rows)
    {
      var updates;
      error, updates, hosts := PlanUpdates(digest, rows);
      if error.None? {
        rows := ExecuteAll(rows, updates);
      }
    }
  }

  /** The scan that decides the updates of a migration. */
  method PlanUpdates(digest: Digest, rows: seq<Row>) returns (error: Option<Error>, updates: seq<Update>, ghost hosts: seq<nat>)
    requires DistinctIds(rows)
    ensures error.None? ==>
      |hosts| == |rows| && Assigns(digest, rows, hosts) && UpdatedAll(rows, updates) == SettledAll(rows, hosts)
    ensures error.Some? ==> FailsAt(digest, rows, hosts, error.value)
  {
    var used: set<nat> := {};
    updates, hosts := [], [];
    for i := 0 to |rows|
      invariant |hosts| == i && Assigns(digest, rows, hosts) && used == Taken(hosts)
      invariant Pending(rows, hosts, updates)
    {
      var row := rows[i];
      var wanted := Wanted(row);
      var host: nat;
      if wanted.Some? && wanted.value !in used {
        host := wanted.value;
        KeepPending(rows, hosts, updates, host);
        used := used + {host};
      } else {
        if |row.id| != 32 {
          error := Some(InvalidPeer);
          return;
        }
        var found, used' := AllocateFromUsed(Start(digest, row.id), used);
        if found.Err? {
          error := Some(AddressPoolExhausted);
          return;
        }
        host := found.value;
        ChangePending(rows, hosts, updates, host);
        updates := updates + [Update(row.id, AddressOf(host))];
        used := used';
      }
      AssignOneMore(digest, rows, hosts, host);
      hosts := hosts + [host];
    }
    PendingDone(rows, hosts, updates);
    error := None;
  }

  lemma {:induction false} AssignOneMore(digest: Digest, rows: seq<Row>, hosts: seq<nat>, host: nat)
    requires |hosts| < |rows| && Assigns(digest, rows, hosts) && AssignedAt(digest, rows[|hosts|], hosts, host)
    ensures Assigns(digest, rows, hosts + [host])
    ensures Taken(hosts + [host]) == Taken(hosts) + {host}
  {
  }

  method ExecuteAll(rows: seq<Row>, updates: seq<Update>) returns (changed: seq<Row>)
    ensures changed == UpdatedAll(rows, updates)
  {
    changed := rows;
    for k := 0 to |updates|
      invariant changed == UpdatedAll(rows, updates[..k])
    {
      ExecuteOne(rows, updates, k);
      changed := Execute(changed, updates[k]);
    }
    assert updates[..|updates|] == updates;
  }

  /** Every row whose id the update names gets its address. */
  function Execute(rows: seq<Row>, u: Update): seq<Row> {
    seq(|rows|, i requires 0 <= i < |rows| => if rows[i].id == u.id then Row(u.id, Some(u.address)) else rows[i])
  }

  function UpdatedAll(rows: seq<Row>, updates: seq<Update>): seq<Row> {
    seq(|rows|, i requires 0 <= i < |rows| => Updated(rows[i], updates))
  }

  lemma {:induction false} ExecuteOne(rows: seq<Row>, updates: seq<Update>, k: nat)
    requires k < |updates|
    ensures UpdatedAll(rows, updates[..k + 1]) == Execute(UpdatedAll(rows, updates[..k]), updates[k])
  {
    var before, after := updates[..k], updates[..k + 1];
    assert after[..|after| - 1] == before;
    forall i | 0 <= i < |rows| ensures UpdatedAll(rows, after)[i] == Execute(UpdatedAll(rows, before), updates[k])[i] {
      UpdatedId(rows[i], before);
    }
  }

  lemma {:induction false} UpdatedId(row: Row, updates: seq<Update>)
    ensures Updated(row, updates).id == row.id
  {
    if updates != [] {
      UpdatedId(row, updates[..|updates| - 1]);
    }
  }

  /** The updates collected so far change exactly the rows that need another address. */
  ghost predicate Pending(rows: seq<Row>, hosts: seq<nat>, updates: seq<Update>)
    requires |hosts| <= |rows|
  {
    && (forall u | u in updates :: exists i: nat | i < |hosts| :: rows[i].id == u.id)
    && forall i: nat | i < |hosts| :: Updated(rows[i], updates) == Settled(rows[i], hosts[i])
  }

  lemma {:induction false} KeepPending(rows: seq<Row>, hosts: seq<nat>, updates: seq<Update>, host: nat)
    requires DistinctIds(rows) && |hosts| < |rows| && Pending(rows, hosts, updates)
    requires Wanted(rows[|hosts|]) == Some(host)
    ensures Pending(rows, hosts + [host], updates)
  {
    UpdatedOther(rows[|hosts|], updates);
  }

  lemma {:induction false} ChangePending(rows: seq<Row>, hosts: seq<nat>, updates: seq<Update>, host: nat)
    requires DistinctIds(rows) && |hosts| < |rows| && Pending(rows, hosts, updates)
    requires Wanted(rows[|hosts|]) != Some(host)
    ensures Pending(rows, hosts + [host], updates + [Update(rows[|hosts|].id, AddressOf(host))])
  {
  }

  lemma {:induction false} PendingDone(rows: seq<Row>, hosts: seq<nat>, updates: seq<Update>)
    requires |hosts| == |rows| && Pending(rows, hosts, updates)
    ensures UpdatedAll(rows, updates) == SettledAll(rows, hosts)
  {
  }

  predicate Stores(rows: seq<Row>, address: Octets) {
    exists i | 0 <= i < |rows| :: rows[i].stored == Some(address)
  }

  ghost function StoredHosts(rows: seq<Row>): set<nat> {
    set i | 0 <= i < |rows| && Wanted(rows[i]).Some? :: Wanted(rows[i]).value
  }

  /** Looking for the octets of a host finds exactly the rows that name it. */
  lemma {:induction false} StoresHost(rows: seq<Row>, host: nat)
    requires 1 <= host <= HOSTS
    ensures Stores(rows, AddressOf(host)) <==> host in StoredHosts(rows)
  {
    if Stores(rows, AddressOf(host)) {
      var i :| 0 <= i < |rows| && rows[i].stored == Some(AddressOf(host));
      ColumnRoundTrip(rows[i].id, host);
      assert Wanted(rows[i]) == Some(host);
    }
    if host in StoredHosts(rows) {
      var i :| 0 <= i < |rows| && Wanted(rows[i]).Some? && Wanted(rows[i]).value == host;
      ColumnsWithSameHost(rows[i]);
    }
  }

  // ---------------------------------------------------------------- what migration promises

  /** Two assignments agree as far as both go: the outcome is decided by the table alone. */
  lemma {:induction false} AssignsUnique(digest: Digest, rows: seq<Row>, a: seq<nat>, b: seq<nat>)
    requires Assigns(digest, rows, a) && Assigns(digest, rows, b) && |a| <= |b|
    ensures a == b[..|a|]
  {
    if a != [] {
      var n := |a| - 1;
      AssignsPrefix(digest, rows, a, n);
      AssignsUnique(digest, rows, a[..n], b);
      assert a[..n] == b[..n];
      assert AssignedAt(digest, rows[n], a[..n], a[n]) && AssignedAt(digest, rows[n], b[..n], b[n]);
      if !Keeps(rows[n], a[..n]) {
        FirstFreeUnique(Start(digest, rows[n].id), Taken(a[..n]), a[n], b[n]);
      }
      assert a == a[..n] + [a[n]] && b[..|a|] == b[..n] + [b[n]];
    }
  }

  lemma {:induction false} AssignsPrefix(digest: Digest, rows: seq<Row>, hosts: seq<nat>, n: nat)
    requires Assigns(digest, rows, hosts) && n <= |hosts|
    ensures Assigns(digest, rows, hosts[..n])
  {
  }

  /** A successful migration leaves every row with a valid host, no two the same; a row is left
      as it was exactly when its host was valid and no earlier row had ended up there. */
  lemma {:induction false} MigrationSettles(digest: Digest, rows: seq<Row>, hosts: seq<nat>)
    requires Assigns(digest, rows, hosts) && |hosts| == |rows|
    ensures var after := SettledAll(rows, hosts);
      && (forall i | 0 <= i < |rows| :: Wanted(after[i]) == Some(hosts[i]) && after[i].id == rows[i].id)
      && (forall i, j | 0 <= i < j < |rows| :: Wanted(after[i]) != Wanted(after[j]))
      && (forall i | 0 <= i < |rows| :: after[i] == rows[i] <==> Keeps(rows[i], hosts[..i]))
  {
    AssignsDistinct(digest, rows, hosts);
    forall i | 0 <= i < |rows|
      ensures Wanted(SettledAll(rows, hosts)[i]) == Some(hosts[i])
      ensures SettledAll(rows, hosts)[i] == rows[i] <==> Keeps(rows[i], hosts[..i])
    {
      assert AssignedAt(digest, rows[i], hosts[..i], hosts[i]);
      ColumnRoundTrip(rows[i].id, hosts[i]);
    }
  }

  /** Migrating again changes nothing. */
  lemma {:induction false} MigrationIdempotent(digest: Digest, rows: seq<Row>, hosts: seq<nat>)
    requires Assigns(digest, rows, hosts) && |hosts| == |rows|
    ensures var after := SettledAll(rows, hosts);
      Assigns(digest, after, hosts) && SettledAll(after, hosts) == after
  {
    MigrationSettles(digest, rows, hosts);
    AssignsDistinct(digest, rows, hosts);
    var after := SettledAll(rows, hosts);
    forall i: nat | i < |hosts| ensures AssignedAt(digest, after[i], hosts[..i], hosts[i]) {
      assert forall k | 0 <= k < i :: hosts[..i][k] == hosts[k];
      assert hosts[i] in hosts;
    }
  }

  /** The pool runs out exactly at the first row past its size. */
  lemma {:induction false} ExhaustedExactly(digest: Digest, rows: seq<Row>, hosts: seq<nat>)
    requires Assigns(digest, rows, hosts)
    ensures |hosts| <= HOSTS
    ensures Full(Taken(hosts)) <==> |hosts| == HOSTS
  {
    AssignsDistinct(digest, rows, hosts);
    DistinctCount(hosts);
    AllOf(Taken(hosts), HOSTS);
    if |hosts| < HOSTS { RoomLeft(Taken(hosts)); }
  }

  /** With ids of 32 bytes, the migration fails exactly when there are more rows than hosts, and
      then because the pool is exhausted. */
  lemma {:induction false} MigrationFailsExactly(digest: Digest, rows: seq<Row>, hosts: seq<nat>, error: Option<Error>)
    requires forall i | 0 <= i < |rows| :: |rows[i].id| == 32
    requires if error.Some? then FailsAt(digest, rows, hosts, error.value) else |hosts| == |rows| && Assigns(digest, rows, hosts)
    ensures error == (if |rows| <= HOSTS then None else Some(AddressPoolExhausted))
  {
    ExhaustedExactly(digest, rows, hosts);
  }

  /** A valid address no other row has is not always kept: for any digest and any two ids, if the
      first row has no address and the second the one where the first row's search starts, the
      migration gives it to the first row and moves the second. */
  lemma {:induction false} UniqueAddressCanMove(digest: Digest, a: Id, b: Id) returns (hosts: seq<nat>)
    requires |a| == 32 && |b| == 32 && a != b
    ensures var rows := [Row(a, None), Row(b, Some(AddressOf(1 + Start(digest, a))))];
      && DistinctIds(rows) && Wanted(rows[1]) == Some(1 + Start(digest, a))
      && |hosts| == 2 && Assigns(digest, rows, hosts) && SettledAll(rows, hosts)[1] != rows[1]
  {
    var h := 1 + Start(digest, a);
    var rows := [Row(a, None), Row(b, Some(AddressOf(h)))];
    ColumnRoundTrip(b, h);
    var next := FirstFreeBut(Start(digest, b), h);
    ColumnRoundTrip(b, next);
    hosts := [h, next];
    assert HostAt(Start(digest, a), 0) == h;
    assert hosts[..0] == [] && hosts[..1] == [h];
    assert Taken([]) == {} && Taken([h]) == {h};
    assert AssignedAt(digest, rows[0], hosts[..0], hosts[0]);
    assert AssignedAt(digest, rows[1], hosts[..1], hosts[1]);
  }

  lemma {:induction false} FirstFreeBut(start: nat, h: nat) returns (host: nat)
    requires start < HOSTS
    ensures IsFirstFree(start, {h}, host) && 1 <= host <= HOSTS && host != h
  {
    var offset := if HostAt(start, 0) != h then 0 else 1;
    host := HostAt(start, offset);
  }

  /** It is always kept when every earlier row has a valid address and no two of them share one. */
  lemma {:induction false} KeptBehindSettledRows(digest: Digest, rows: seq<Row>, hosts: seq<nat>)
    requires Assigns(digest, rows, hosts)
    requires forall i | 0 <= i < |hosts| :: Wanted(rows[i]).Some?
    requires forall i, j | 0 <= i < j < |hosts| :: Wanted(rows[i]) != Wanted(rows[j])
    ensures forall i | 0 <= i < |hosts| :: Wanted(rows[i]) == Some(hosts[i])
  {
    if hosts != [] {
      var n := |hosts| - 1;
      AssignsPrefix(digest, rows, hosts, n);
      KeptBehindSettledRows(digest, rows, hosts[..n]);
      assert AssignedAt(digest, rows[n], hosts[..n], hosts[n]);
      assert forall i | 0 <= i < n :: Wanted(rows[i]) == Some(hosts[..n][i]);
    }
  }
}
