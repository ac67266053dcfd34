/** Validated IP packets, the Internet checksum and the host-route table. */
module Ip {
  import opened Base

  type NodeId = k: seq<Byte> | |k| == 32 witness seq(32, i => 0)

  datatype IpAddr = V4(octets: seq<Byte>) | V6(octets: seq<Byte>)

  datatype IpPacket = IpPacket(bytes: seq<Byte>, source: IpAddr, destination: IpAddr, protocol: Byte)

  datatype IpError =
    | Truncated
    | UnsupportedVersion(version: nat)
    | InvalidHeaderLength
    | InvalidTotalLength
    | LengthMismatch(declared: nat, actual: nat)
    | InvalidChecksum
    | SourceNotLocal(address: IpAddr)
    | DestinationUnknown(address: IpAddr)

  // ---------------------------------------------------------------- checksum

  function Word(hi: Byte, lo: Byte): U16 { hi * 256 + lo }

  function Hi(word: U16): Byte { word / 256 }

  function Lo(word: U16): Byte { word % 256 }

  /** `word` written big-endian at `k`. */
  function Put(data: seq<Byte>, k: nat, word: U16): seq<Byte>
    requires k + 1 < |data|
  {
    data[k := Hi(word)][k + 1 := Lo(word)]
  }

  /** The big-endian words of the data added without bound; an odd last byte is a high byte. */
  function WordSum(data: seq<Byte>): nat {
    if data == [] then 0
    else if |data| % 2 == 1 then WordSum(data[..|data| - 1]) + Word(data[|data| - 1], 0)
    else WordSum(data[..|data| - 2]) + Word(data[|data| - 2], data[|data| - 1])
  }

  /** Ones' complement reduction: modulo 65535, with 65535 standing for a nonzero multiple. */
  function Reduce(sum: nat): U16 {
    if sum == 0 then 0 else 1 + (sum - 1) % 65535
  }

  function ChecksumOf(data: seq<Byte>): U16 {
    65535 - Reduce(WordSum(data))
  }

  lemma {:induction false} ReduceAdd(a: nat, b: nat)
    ensures Reduce(Reduce(a) + b) == Reduce(a + b)
  {
  }

  lemma {:induction false} ModAddMultiple(x: nat, k: nat)
    ensures (x + 65535 * k) % 65535 == x % 65535
  {
  }

  /** Folding the carry back in keeps the reduced value. */
  lemma {:induction false} FoldKeeps(sum: nat)
    requires sum > 65535
    ensures sum % 65536 + sum / 65536 < sum
    ensures Reduce(sum % 65536 + sum / 65536) == Reduce(sum)
  {
  }

  lemma {:induction false} ReduceSmall(sum: nat)
    requires sum <= 65535
    ensures Reduce(sum) == sum
  {
  }

  /** The inner loop: fold the carries until the sum fits sixteen bits. */
  method FoldCarries(start: nat) returns (sum: nat)
    ensures sum == Reduce(start)
  {
    sum := start;
    while sum > 65535
      invariant Reduce(sum) == Reduce(start)
    {
      FoldKeeps(sum);
      sum := sum % 65536 + sum / 65536;
    }
    ReduceSmall(sum);
  }

  lemma {:induction false} WordSumPair(data: seq<Byte>, i: nat)
    requires i % 2 == 0 && i + 2 <= |data|
    ensures WordSum(data[..i + 2]) == WordSum(data[..i]) + Word(data[i], data[i + 1])
  {
    assert data[..i + 2][..i] == data[..i];
  }

  lemma {:induction false} WordSumLast(data: seq<Byte>, i: nat)
    requires i % 2 == 0 && i + 1 == |data|
    ensures WordSum(data[..i + 1]) == WordSum(data[..i]) + Word(data[i], 0)
  {
    assert data[..i + 1][..i] == data[..i];
  }

  lemma {:induction false} AddWord(total: nat, sum: nat, word: U16)
    requires sum == Reduce(total)
    ensures Reduce((sum + word) % 0x1_0000_0000) == Reduce(total + word)
  {
    assert sum + word < 0x1_0000_0000;
    ReduceAdd(total, word);
  }

  /** The loop of the source: one big-endian word at a time, folded after every addition, in
      32-bit arithmetic. */
  method Checksum(data: seq<Byte>) returns (c: U16)
    ensures c == ChecksumOf(data)
  {
    var sum: nat := 0;
    var i := 0;
    ghost var total := 0;
    while i < |data|
      invariant 0 <= i <= |data| && (i % 2 == 0 || i == |data|)
      invariant total == WordSum(data[..i]) && sum == Reduce(total)
    {
      var word: U16;
      if i + 2 <= |data| {
        word := Word(data[i], data[i + 1]);
        WordSumPair(data, i);
        i := i + 2;
      } else {
        word := Word(data[i], 0);
        WordSumLast(data, i);
        i := i + 1;
      }
      AddWord(total, sum, word);
      sum := FoldCarries((sum + word) % 0x1_0000_0000);
      total := total + word;
    }
    assert data[..i] == data;
    c := 65535 - sum;
  }

  /** A checksum verifies exactly when the words sum to a nonzero multiple of 65535. */
  lemma {:induction false} ChecksumVerifies(data: seq<Byte>)
    ensures ChecksumOf(data) == 0 <==> WordSum(data) > 0 && WordSum(data) % 65535 == 0
  {
  }

  lemma {:induction false} PutBefore(data: seq<Byte>, k: nat, word: U16, n: nat)
    requires k + 1 < n <= |data|
    ensures Put(data, k, word)[..n] == Put(data[..n], k, word)
  {
  }

  lemma {:induction false} WordSumUpdate(data: seq<Byte>, k: nat, word: U16)
    requires k % 2 == 0 && k + 1 < |data| && data[k] == 0 && data[k + 1] == 0
    ensures WordSum(Put(data, k, word)) == WordSum(data) + word
    decreases |data|
  {
    var n := if |data| % 2 == 1 then |data| - 1 else |data| - 2;
    if k == n {
      assert Put(data, k, word)[..n] == data[..n];
    } else {
      PutBefore(data, k, word, n);
      WordSumUpdate(data[..n], k, word);
    }
  }

  /** Any sum and the complement of its reduction add up to a multiple of 65535. */
  lemma {:induction false} ComplementCompletes(s: nat)
    ensures Reduce(s + (65535 - Reduce(s))) == 65535
  {
    if s > 0 {
      var q := (s - 1) / 65535;
      assert s + (65535 - Reduce(s)) - 1 == 65534 + 65535 * q;
      ModAddMultiple(65534, q);
    }
  }

  /** Writing the checksum into a zeroed, aligned field always makes the data verify. */
  lemma {:induction false} FilledChecksumVerifies(data: seq<Byte>, k: nat)
    requires k % 2 == 0 && k + 1 < |data| && data[k] == 0 && data[k + 1] == 0
    ensures ChecksumOf(Put(data, k, ChecksumOf(data))) == 0
  {
    WordSumUpdate(data, k, ChecksumOf(data));
    ComplementCompletes(WordSum(data));
  }

  // ---------------------------------------------------------------- parsing

  function ParseV4(bytes: seq<Byte>): Result<IpPacket, IpError>
    requires bytes != []
  {
    if |bytes| < 20 then Err(Truncated)
    else
      var headerLen := bytes[0] % 16 * 4;
      if headerLen < 20 then Err(InvalidHeaderLength)
      else if |bytes| < headerLen then Err(Truncated)
      else
        var totalLen := Word(bytes[2], bytes[3]);
        if totalLen < headerLen then Err(InvalidTotalLength)
        else if totalLen != |bytes| then Err(LengthMismatch(totalLen, |bytes|))
        else if ChecksumOf(bytes[..headerLen]) != 0 then Err(InvalidChecksum)
        else Ok(IpPacket(bytes, V4(bytes[12..16]), V4(bytes[16..20]), bytes[9]))
  }

  function ParseV6(bytes: seq<Byte>): Result<IpPacket, IpError>
    requires bytes != []
  {
    if |bytes| < 40 then Err(Truncated)
    else
      var totalLen := 40 + Word(bytes[4], bytes[5]);
      if totalLen != |bytes| then Err(LengthMismatch(totalLen, |bytes|))
      else Ok(IpPacket(bytes, V6(bytes[8..24]), V6(bytes[24..40]), bytes[6]))
  }

  /** An accepted packet keeps its bytes, and its addresses have the size of its version. */
  function Parse(bytes: seq<Byte>): (r: Result<IpPacket, IpError>)
    ensures r.Ok? ==> r.value.bytes == bytes && |bytes| >= 20
    ensures r.Ok? ==> |r.value.source.octets| == |r.value.destination.octets| == if r.value.source.V4? then 4 else 16
  {
    if bytes == [] then Err(Truncated)
    else if bytes[0] / 16 == 4 then ParseV4(bytes)
    else if bytes[0] / 16 == 6 then ParseV6(bytes)
    else Err(UnsupportedVersion(bytes[0] / 16))
  }

  /** A header with version, lengths and a zeroed checksum field. */
  predicate V4Draft(bytes: seq<Byte>) {
    && |bytes| >= 20
    && bytes[0] / 16 == 4
    && 20 <= bytes[0] % 16 * 4 <= |bytes|
    && Word(bytes[2], bytes[3]) == |bytes|
    && bytes[10] == 0 && bytes[11] == 0
  }

  function Finish(bytes: seq<Byte>): seq<Byte>
    requires V4Draft(bytes)
  {
    var c := ChecksumOf(bytes[..bytes[0] % 16 * 4]);
    Put(bytes, 10, c)
  }

  /** The way packets are built: any drafted header, once its checksum is filled in, is
      accepted, whatever its options, addresses and payload, and yields its addresses. */
  lemma {:induction false} FinishedPacketParses(bytes: seq<Byte>)
    requires V4Draft(bytes)
    ensures Parse(Finish(bytes)) == Ok(IpPacket(Finish(bytes), V4(bytes[12..16]), V4(bytes[16..20]), bytes[9]))
  {
    var n := bytes[0] % 16 * 4;
    var header := bytes[..n];
    var c := ChecksumOf(header);
    var done := Finish(bytes);
    FilledChecksumVerifies(header, 10);
    assert done[..n] == Put(header, 10, c);
    assert done[12..16] == bytes[12..16] && done[16..20] == bytes[16..20];
  }

  /** The same by fields: a header put together in the order of RFC 791, with any options and
      payload, gives back the source and destination it was built from. */
  lemma {:induction false} BuiltV4Parses(front: seq<Byte>, source: seq<Byte>, destination: seq<Byte>, rest: seq<Byte>)
    requires |front| == 12 && |source| == 4 && |destination| == 4 && V4Draft(front + source + destination + rest)
    ensures var r := Parse(Finish(front + source + destination + rest));
      r.Ok? && r.value.source == V4(source) && r.value.destination == V4(destination) && r.value.protocol == front[9]
  {
    var bytes := front + source + destination + rest;
    FinishedPacketParses(bytes);
    assert bytes[12..16] == source && bytes[16..20] == destination;
  }

  /** An IPv6 packet by fields, in the order of RFC 8200. */
  function BuildV6(flow: seq<Byte>, next: Byte, hops: Byte, source: seq<Byte>, destination: seq<Byte>, payload: seq<Byte>): seq<Byte>
    requires |payload| < 0x1_0000
  {
    flow + [Hi(|payload|), Lo(|payload|)] + [next, hops] + source + destination + payload
  }

  predicate IsV6(bytes: seq<Byte>, flow: seq<Byte>, next: Byte, hops: Byte, source: seq<Byte>, destination: seq<Byte>, payload: seq<Byte>) {
    && |flow| == 4 && flow[0] / 16 == 6 && |payload| < 0x1_0000
    && bytes == BuildV6(flow, next, hops, source, destination, payload)
  }

  lemma {:induction false} BuiltV6Parses(bytes: seq<Byte>, flow: seq<Byte>, next: Byte, hops: Byte, source: seq<Byte>, destination: seq<Byte>, payload: seq<Byte>)
    requires |source| == 16 && |destination| == 16 && IsV6(bytes, flow, next, hops, source, destination, payload)
    ensures Parse(bytes) == Ok(IpPacket(bytes, V6(source), V6(destination), next))
  {
    assert bytes[0] == flow[0] && bytes[4] == Hi(|payload|) && bytes[5] == Lo(|payload|) && bytes[6] == next;
    assert bytes[8..24] == source && bytes[24..40] == destination;
  }

  lemma {:induction false} ParsedV6IsBuilt(bytes: seq<Byte>)
    requires bytes != [] && bytes[0] / 16 == 6 && ParseV6(bytes).Ok?
    ensures |bytes| >= 40 && IsV6(bytes, bytes[..4], bytes[6], bytes[7], bytes[8..24], bytes[24..40], bytes[40..])
  {
  }

  /** IPv6 packets are accepted exactly when they are such a composition, and yield its fields. */
  lemma {:induction false} V6ParsesExactlyBuilt(bytes: seq<Byte>, next: Byte, source: seq<Byte>, destination: seq<Byte>)
    requires |source| == 16 && |destination| == 16
    ensures Parse(bytes) == Ok(IpPacket(bytes, V6(source), V6(destination), next)) <==>
      exists flow, hops, payload :: IsV6(bytes, flow, next, hops, source, destination, payload)
  {
    if Parse(bytes) == Ok(IpPacket(bytes, V6(source), V6(destination), next)) {
      ParsedV6IsBuilt(bytes);
      assert source == bytes[8..24] && destination == bytes[24..40] && next == bytes[6];
    }
    if flow, hops, payload :| IsV6(bytes, flow, next, hops, source, destination, payload) {
      BuiltV6Parses(bytes, flow, next, hops, source, destination, payload);
    }
  }

  // ---------------------------------------------------------------- routes

  class RouteTable {
    var local: seq<IpAddr>
    var routes: map<IpAddr, NodeId>

    constructor (local: seq<IpAddr>)
      ensures this.local == local && routes == map[]
    {
      this.local := local;
      routes := map[];
    }

    method Insert(address: IpAddr, peer: NodeId)
      modifies this`routes
      ensures routes == old(routes)[address := peer]
    {
      routes := routes[address := peer];
    }

    predicate IsLocal(address: IpAddr)
      reads this
    {
      address in local
    }

    /** The peer an outbound packet goes to: its source must be ours, its destination a
        member's host route. */
    function ValidateOutbound(packet: IpPacket): (r: Result<NodeId, IpError>)
      reads this
    {
      if !IsLocal(packet.source) then Err(SourceNotLocal(packet.source))
      else if packet.destination in routes then Ok(routes[packet.destination])
      else Err(DestinationUnknown(packet.destination))
    }
  }
}
