# Vela, verified

Vela is a peer-to-peer virtual network: nodes learn their members from signed snapshots of a
coordinator, shake hands over UDP, and carry IP packets in sealed datagrams. This project models
its protocol core in Dafny and proves what that core promises, for every input and over whole runs.

`dafny verify dfyconfig.toml` checks everything.

| module | what it models |
|---|---|
| `ReplayWindow`, `Word64` | the 1024-bit anti-replay bitmap of a session, over 64-bit word operations |
| `PathMtu` | the path MTU search: probing, giving up, bisecting, acknowledgement |
| `PathMigration` | when a session's path follows a new source address |
| `Ip` | IP packet validation, the Internet checksum, the host-route table |
| `ReceiveCommit` | committing decrypted packets, one by one and in the three-pass batch |
| `DataPipeline` | the receive pipeline: sharding, batches, parallel decryption, commit |
| `SendPrepare` | preparing one peer's packets: screening, sequence numbers, chunked encryption, queueing |
| `SendBatch` | the batched sender from parsing to the result slots |
| `Handshake` | probes, the Noise exchange, installed sessions, nonces |
| `Snapshot`, `CanonicalBytes` | snapshot validation, and the bytes that are signed |
| `Membership` | taking over a snapshot: peers, sessions, routes |
| `RouteLeases` | reference-counted kernel routes, their leases, and snapshots turned into routes |
| `Broadcast` | the coordinator's coalescing snapshot broadcaster |
| `Addresses` | allocation of virtual IPv4 addresses, and the migration of stored ones |
| `Wire`, `BigEndian` | the 26-byte header, the decoders, sealed packets |
| `Base` | shared types and facts about subsequences |

Objects the code updates in place are classes whose methods are proved against functions on
values; the properties are lemmas about those functions. Concurrent parts (`Broadcast`,
`DataPipeline`, `Handshake`, leases in `RouteLeases`) are state machines: `Apply` is one atomic
step, `Exec` a whole run, and a step that is not enabled changes nothing. Clocks, random numbers,
hashes, signatures, socket and kernel outcomes are parameters.

Where a promise turns out not to hold in full, the model keeps the code, shows a case, and states
exactly when it holds:

- A nonce repeats exactly if a session hands out more than 2^64 sequence numbers (`NonceReuseExactly`).
- A lease whose route deletion fails is released a second time when it is dropped; counts equal live
  leases throughout a run exactly if no such second release finds its route claimed again
  (`CountedExactly`). That takes a route that vanished from the kernel by itself: without one, counts
  are live leases whatever the kernel refuses (`CountsSurviveRefusals`, `FailedDeletionCanSteal`).
- A batched send that fails half way reports all its packets as failed. What goes on the wire is what
  is reported as sent exactly if no failing group had taken a packet first (`WireIsReportedExactly`,
  `SentAndReportedFailed`).
- The comment on `apply_snapshot` says routes and peer records never come from different snapshots.
  A snapshot refused part way has already updated earlier peers; routes and records then agree
  exactly if none of those peers changed its addresses (`RefusedStaysAlignedExactly`, `RefusedCanMisalign`,
  `MisalignedRun`).
- A stored address that is valid and unique can still move in a migration; a row is left as it was
  exactly if its host is valid and no earlier row ended up there (`MigrationSettles`, `UniqueAddressCanMove`).

## Model

| member | source | states |
|---|---|---|
| `ReplayWindow.RunIsExact` | vela-core/src/lib.rs:5625-5679 | over any run of calls no sequence is accepted twice, and a call is accepted exactly if no earlier accepted call had the same sequence or one 1024 or more ahead |
| `ReplayWindow.AcceptedByVerdicts` | vela-core/src/lib.rs:5634-5660 | the accepted set of a run holds exactly the sequences of the calls that returned true |
| `ReplayWindow.AcceptableByHighest` | vela-core/src/lib.rs:5635-5660 | the rule over all accepted sequences is the rule by the highest one: newer, or within 1024 and never accepted |
| `ReplayWindow.Window.Accept` | vela-core/src/lib.rs:5635-5660 | the bitmap decides exactly as the set of all sequences ever accepted, and keeps mirroring it |
| `ReplayWindow.Window.ShiftLeft` | vela-core/src/lib.rs:5662-5679 | every bit moves up by the shift across word borders, zeros move in, shifts of 1024 or more clear all |
| `ReplayWindow.ShiftedBit` | vela-core/src/lib.rs:5662-5679 | bit `d` of the shifted words is bit `d - shift` of the old ones, or zero |
| `PathMtu.PathMtuState.constructor` | vela-core/src/lib.rs:5493-5502 | the search starts at the smaller of base and maximum with its first target |
| `PathMtu.PathMtuState.Reset` | vela-core/src/lib.rs:5504-5508 | a reset is a new search and reports whether the confirmed MTU changed |
| `PathMtu.PathMtuState.PollProbe` | vela-core/src/lib.rs:5510-5535 | the poll in place does what `Poll` does to the state, and returns its probe |
| `PathMtu.PathMtuState.Acknowledged` | vela-core/src/lib.rs:5537-5563 | the acknowledgement in place does what `Acknowledge` does; reports a changed confirmed MTU |
| `PathMtu.Poll` | vela-core/src/lib.rs:5510-5535 | a probe sent is the one left pending and stamped now; nothing is sent only while waiting or with nothing to do |
| `PathMtu.NextProbe` | vela-core/src/lib.rs:5565-5571 | a bisection target exists exactly while more than 8 can be gained, strictly between the bounds |
| `PathMtu.SearchTerminates` | vela-core/src/lib.rs:5492-5571 | under any loss, duplicates and late acks: targets in (confirmed, upper], never two open, none sent more than 3 times, at most 3 * (maximum - base) sends |
| `PathMtu.SearchStops` | vela-core/src/lib.rs:5510-5563 | after more than that many due polls nothing is pending or scheduled |
| `PathMtu.SearchConverges` | vela-core/src/lib.rs:5485-5571 | on a path with a fixed limit, confirmed <= limit <= upper always, and an idle search is within 8 of the limit |
| `PathMtu.SearchFindsLimit` | vela-core/src/lib.rs:5485-5571 | enough due polls on such a path end with the confirmed MTU at most 8 below the limit and never above |
| `PathMigration.ActivePath.ConfirmPathMigration` | vela-core/src/lib.rs:5576-5605 | the candidate counter is updated as `Observe` says and confirms exactly then |
| `PathMigration.ActivePath.ObserveDataSource` | vela-core/src/lib.rs:5611-5617 | a confirmed source becomes the path |
| `PathMigration.MigrationMatchesHistory` | vela-core/src/lib.rs:5576-5617 | over any arrivals of data and control packets the path moves to a source exactly when the packet is data, passes the replay window they all share, and the last three stray data packets since the last move are from it with gaps of at most 2 s; their sequences are distinct |
| `PathMigration.ReceiveAllStands` | vela-core/src/lib.rs:4278-4294 | behind the shared replay window the one candidate record stands for the whole history of stray data packets; control packets only use up their sequence |
| `Ip.Checksum` | vela-ip/src/lib.rs:183-197 | folding after every word gives the complement of the unbounded word sum reduced mod 65535 with 65535 for nonzero multiples |
| `Ip.ChecksumVerifies` | vela-ip/src/lib.rs:183-197 | the checksum is zero exactly when the word sum is a positive multiple of 65535 |
| `Ip.FilledChecksumVerifies` | vela-ip/src/lib.rs:183-197 | writing the checksum of data with a zeroed aligned field into that field always makes the data verify |
| `Ip.FinishedPacketParses` | vela-ip/src/lib.rs:39-70 | any IPv4 header of right version and lengths with its checksum filled in is accepted |
| `Ip.BuiltV4Parses` | vela-ip/src/lib.rs:39-70 | a header composed field by field gives back its source, destination and protocol |
| `Ip.V6ParsesExactlyBuilt` | vela-ip/src/lib.rs:72-95 | IPv6 packets are accepted exactly when composed of header fields with the right length, and give back those fields |
| `Ip.Parse` | vela-ip/src/lib.rs:27-37 | accepted packets keep their bytes and have addresses of their version |
| `ReceiveCommit.PassesEqualEach` | vela-core/src/lib.rs:4216-4376 | parsing, session, route and emit passes over a whole batch equal committing packet by packet |
| `ReceiveCommit.BatchAccounts` | vela-core/src/lib.rs:4216-4468 | every packet of a peer ends in exactly one of four counters unless its session is not active, and every accepted one is an event or a counted queue drop |
| `ReceiveCommit.Receiver.CommitIpData` | vela-core/src/lib.rs:4378-4468 | one packet goes through all stages as `CommitOne` says; an error exactly when it fails to parse or has a foreign destination |
| `ReceiveCommit.Receiver.CommitRuns` | vela-core/src/lib.rs:4254-4310 | one lock per run of packets of one session leaves what one lookup per packet leaves |
| `ReceiveCommit.Receiver.CommitIpDataBatch` | vela-core/src/lib.rs:4216-4376 | the batch leaves the same replay sets, paths, MTU states, counters and event order as one commit per packet |
| `DataPipeline.SessionOrderKept` | vela-core/src/lib.rs:3089-3320 | in every run and for any number of workers, a session's delivered packets are a subsequence of its arrivals |
| `DataPipeline.ArriveKeeps` | vela-core/src/lib.rs:2984-3004 | sharding by session id onto bounded queues keeps every session's line in order |
| `DataPipeline.TakeBatchKeeps` | vela-core/src/lib.rs:3248-3320 | taking a batch, dropping packets without a cipher or delivering one at once keeps it |
| `DataPipeline.DispatchKeeps` | vela-core/src/lib.rs:3089-3183 | cutting a batch into parts of 16 for the decrypt workers keeps it |
| `DataPipeline.CommitKeeps` | vela-core/src/lib.rs:3216-3246 | collecting the answers part by part, whatever order they came in, keeps it |
| `SendPrepare.PrepareIpPackets` | vela-core/src/lib.rs:4563-4713 | a group is prepared as if one packet at a time, down to sequence numbers and queue; a packet gets an I/O error instead exactly if its own encryption task crashed |
| `SendPrepare.EncryptWork` | vela-core/src/lib.rs:4644-4708 | under chunked parallel encryption an item ends as an I/O error exactly if the task of its own chunk crashed, although a crash first fills all open slots, and as its own packet otherwise; slots filled before stay |
| `SendBatch.Sender.SendGroup` | vela-core/src/lib.rs:4791-4821 | the socket takes a prefix, also when it then fails; a short send reports the prefix, an error nothing, as sent; anything but a full send drops the session |
| `SendBatch.Sender.SendPreparedBatch` | vela-core/src/lib.rs:4774-4826 | every packet is reported as the socket ended its own group; the wire grows by exactly what the socket took, in order; exactly the sessions with a group not fully taken are dropped |
| `SendBatch.Sender.PrepareGroups` | vela-core/src/lib.rs:2163-2200 | every routed packet gets what it would get at its own turn or the crash of its own task: errors and queued packets fill their slots, the others go on to the socket in input order; peers end as after one packet after the other |
| `SendBatch.Sender.SendIpBatch` | vela-core/src/lib.rs:2123-2227 | one result per input: its routing error, or what its preparation at its turn, its task and its group on the socket make of it; the wire grows by what the socket took; peers end as one by one less the failed sessions; from batch to batch sequences on every session keep rising |
| `SendBatch.BatchKeepsOrder` | vela-core/src/lib.rs:4602-4616 | on every session the sequences on the wire strictly rise, and counters stay past all of them |
| `SendBatch.OutgoingInOrder` | vela-core/src/lib.rs:2163-2227 | packets leave in input order, each with its own bytes to the peer it is routed to |
| `SendBatch.AcceptedGroupsAreSent` | vela-core/src/lib.rs:4791-4821 | a prepared packet whose group the socket took in full is reported sent and is on the wire |
| `SendBatch.ReportedIsOutOrQueued` | vela-core/src/lib.rs:2123-2227 | a packet reported sent is on the wire or was queued |
| `SendBatch.WireIsReportedExactly` | vela-core/src/lib.rs:4774-4826 | the wire grows by exactly the packets reported sent if and only if no failing group had taken a packet first |
| `SendBatch.SentAndReportedFailed` | vela-core/src/lib.rs:86-93 | a packet can be sent and reported failed |
| `SendBatch.SessionAfterBatch` | vela-core/src/lib.rs:4602-4616 | a session is gone exactly if a group of it was not fully taken; otherwise its counter advanced by exactly the packets that fit |
| `SendBatch.ExpiredAfterBatch` | vela-core/src/lib.rs:4575-4584 | a peer for which a packet met an expired snapshot has no session left |
| `SendBatch.QueueAfterBatch` | vela-core/src/lib.rs:4622-4641 | the queue of a peer without a session grows by exactly the payloads reported sent, in order |
| `Handshake.Agreement` | vela-core/src/lib.rs:3620-3985 | a session installed by the smaller node from a reply was installed before by the larger one with the same id and opposite keys; one initiator state yields at most one session |
| `Handshake.EstablishKeeps` | vela-core/src/lib.rs:4470-4525 | installing a session keeps agreement, distinctness and the issue log |
| `Handshake.DistinctKeys` | vela-crypto/src/lib.rs:357-374 | two installed sessions, at either end, never encrypt with the same key |
| `Handshake.NonceReuseExactly` | vela-crypto/src/lib.rs:455-459 | over all sessions and traffic no (key, nonce) pair encrypts twice if and only if no session issues more than 2^64 sequences |
| `Broadcast.NeverTwoLoops` | vela-coord/src/lib.rs:1273-1335 | at every moment at most one loop is live, `running` says whether, and pending implies one |
| `Broadcast.ViewsNeverGoBack` | vela-coord/src/lib.rs:1337-1353 | no session's view ever gets older in peers, online set, configuration or generation |
| `Broadcast.IdleMeansServed` | vela-coord/src/lib.rs:1273-1353 | when idle, the published view and that of every session online at a request and still online cover what the request saw |
| `Broadcast.ComesToRest` | vela-coord/src/lib.rs:1296-1335 | from any reached state the loop's own steps, if its reads succeed, bring it to rest |
| `Broadcast.EveryRequestCanBeServed` | vela-coord/src/lib.rs:1296-1353 | they bring it to a state where every request ever made is served |
| `Addresses.AllocateFromUsed` | vela-coord/src/lib.rs:1436-1450 | the first free host in cyclic order is taken and marked; fails exactly when none is free |
| `Addresses.PeerTable.AllocateVirtualIpv4` | vela-coord/src/lib.rs:1362-1387 | a new node gets the first host from its start that no row stores; fails exactly when all are stored |
| `Addresses.PeerTable.MigrateVirtualIpv4` | vela-coord/src/lib.rs:1389-1427 | every row gets its assigned host, or nothing changes and the first row that cannot be given one is blamed |
| `Addresses.PlanUpdates` | vela-coord/src/lib.rs:1401-1418 | the collected updates change exactly the rows that need another address |
| `Addresses.AssignsUnique` | vela-coord/src/lib.rs:1401-1418 | the outcome is decided by the table alone |
| `Addresses.MigrationSettles` | vela-coord/src/lib.rs:1389-1427 | afterwards all hosts are valid and distinct, and a row is unchanged exactly if its host was valid and no earlier row ended up there |
| `Addresses.MigrationIdempotent` | vela-coord/src/lib.rs:1389-1427 | migrating again changes nothing |
| `Addresses.MigrationFailsExactly` | vela-coord/src/lib.rs:1389-1427 | with 32-byte ids it fails exactly for more than 65534 rows, with an exhausted pool |
| `Addresses.UniqueAddressCanMove` | vela-coord/src/lib.rs:1403-1418 | for every hash and any two nodes there is a table where a valid address no other row has goes to an earlier row |
| `Addresses.KeptBehindSettledRows` | vela-coord/src/lib.rs:1403-1418 | rows whose addresses are valid and distinct are all kept |
| `Addresses.ColumnRoundTrip` | vela-coord/src/lib.rs:1429-1434 | a host written as octets is read back as that host |
| `Snapshot.Validate` | vela-proto/src/lib.rs:437-513 | accepts exactly the valid snapshots and names a clause the others break |
| `Snapshot.InNetworkMeans` | vela-proto/src/lib.rs:578-597 | the mask test holds exactly if the network has no bits past the prefix and the address agrees with it on the prefix |
| `Membership.Node.Screen` | vela-core/src/lib.rs:1914-1947 | the checks before any change pass exactly for admissible snapshots |
| `Membership.Node.RefreshPeers` | vela-core/src/lib.rs:1951-1991 | known peers are brought up to date in place as far as credentials were accepted; the new table holds exactly the remote members |
| `Membership.BuildRoutes` | vela-core/src/lib.rs:1992-2001 | whatever the order, the table holds exactly the members' addresses, each to its owner |
| `Membership.Node.ApplySnapshot` | vela-core/src/lib.rs:1913-2037 | succeeds exactly for admissible snapshots with accepted credentials, then replaces table, routes and generation; an admissible one is refused at its first refused peer; refusals leave routes and generation; generation never decreases; indexed sessions stay active ones |
| `Membership.OutboundExactly` | vela-ip/src/lib.rs:170-176 | a packet goes to `n` exactly if its source is local and its destination an address of remote member `n` |
| `Membership.SessionSurvivesExactly` | vela-core/src/lib.rs:5414-5436 | a session outlives a snapshot exactly if its peer is a remote member with unchanged identity, keys, incarnation and addresses whose path is still offered or candidates unchanged |
| `Membership.RefusedStaysAlignedExactly` | vela-core/src/lib.rs:1957-1991 | after a refusal part way, routes and records agree exactly if no updated peer changed its addresses |
| `Membership.RefusedCanMisalign` | vela-core/src/lib.rs:1957-1991 | two admissible snapshots after which they disagree: the second moves a known peer and is refused at the peer after it |
| `Membership.MisalignedRun` | vela-core/src/lib.rs:1913-2037 | the same as a run of a new secured node, for any three keys with different ids |
| `RouteLeases.RouteManager.ClaimHostRoute` | vela-tun/src/lib.rs:303-353 | counts up, or adds a route the kernel does not have yet and counts one, or leaves all as it was |
| `RouteLeases.RouteManager.Release` | vela-tun/src/lib.rs:355-376 | counts down, or deletes the route and drops the count even if the deletion fails or the route is gone already |
| `RouteLeases.CountedExactly` | vela-tun/src/lib.rs:379-410 | counts are live leases throughout a run exactly if no second release finds its route claimed again |
| `RouteLeases.DeletionsKeepCounts` | vela-tun/src/lib.rs:303-410 | if deletions succeed, whatever additions fail, counts are live leases and a route is installed exactly while a lease is live |
| `RouteLeases.CountsSurviveRefusals` | vela-tun/src/lib.rs:303-410 | in every run without a route vanishing by itself, whatever additions and deletions the kernel refuses, counts are live leases throughout and every leased route is installed |
| `RouteLeases.FailedDeletionCanSteal` | vela-tun/src/lib.rs:385-410 | a route that vanished makes a release fail, and the second release can cost another lease its route |
| `RouteLeases.SnapshotRouteAddresses` | vela-tun/src/lib.rs:792-812 | exactly the addresses of remote members, online or not, of a valid snapshot |
| `RouteLeases.ApplyTunSnapshot` | vela-cli/src/main.rs:569-627 | on success the holder's leases are exactly the remote members' addresses; nobody else's counts change; it succeeds exactly if the snapshot is valid, local addresses and all missing routes are accepted |
| `RouteLeases.ApplyAll` | vela-cli/src/main.rs:569-627 | over any sequence of snapshots, accepted or not, a sole holder whose deletions succeed has one count per lease and exactly the leased routes installed; after an accepted one these are exactly the remote members' addresses |
| `Wire.DecodeEncodedHeader` | vela-proto/src/lib.rs:235-272 | decoding an encoded header gives it back whatever follows, or refuses its version |
| `Wire.EncodeDecodedHeader` | vela-proto/src/lib.rs:245-272 | encoding a decoded header gives the input bytes |
| `Wire.Buffer.PutHeader` | vela-proto/src/lib.rs:235-243 | appends exactly the encoded header |
| `Wire.EncodedHeader` | vela-core/src/lib.rs:5936-5946 | the associated data are the encoded header under the current version |
| `Wire.DecodesExactlyEncodings` | vela-proto/src/lib.rs:278-317 | a packet is decoded exactly from its own encoding, on every input |
| `Wire.Decode` | vela-proto/src/lib.rs:289-302 | the copying decoder yields the packet with its payload in a new array, or the same error |
| `Wire.DecodeBytes` | vela-proto/src/lib.rs:304-317 | the slicing decoder yields the same packet or error with its payload left where it is |
| `Wire.DecodeDataPacket` | vela-core/src/lib.rs:5967-5989 | the data path's decoder agrees with the packet decoder on every input, errors included |
| `Wire.NonceDistinct` | vela-crypto/src/lib.rs:455-459 | nonces are equal exactly if sequence numbers are |
| `Wire.SessionCipher.DecryptInPlace` | vela-crypto/src/lib.rs:426-452 | the buffer becomes the opened text without the tag, or stays |
| `Wire.PrepareDataPacket` | vela-core/src/lib.rs:1496-1526 | the datagram is header and sealed packet, refused exactly if too long for the length field |
| `Wire.Receive` | vela-core/src/lib.rs:3189-3214 | the in-place receive path computes `Received` |
| `Wire.ReceivesExactlySealed` | vela-core/src/lib.rs:3189-3214 | a datagram yields a header and text exactly if it is that text sealed under that header, its own sequence and its own bytes |
| `Wire.PreparedRoundTrips` | vela-core/src/lib.rs:1496-1526 | what one end prepares the other end gets back |
| `CanonicalBytes.UnsignedBytes` | vela-proto/src/lib.rs:515-576 | the bytes written piece by piece are the canonical ones |
| `CanonicalBytes.SortedUnique` | vela-proto/src/lib.rs:536-537 | a sorted arrangement of elements told apart by their keys is unique |
| `CanonicalBytes.SignedBytesForgetOrder` | vela-proto/src/lib.rs:515-576 | any two listings of the same valid membership are signed as the same bytes |

## Left out

- Sockets, netlink, TUN devices, SQLite, WebSocket, HTTP, dashboard, command line: their outcomes are parameters or abstract state.
- Ed25519, X25519, blake3, Argon2, HKDF, ChaCha20-Poly1305 and Noise internals: hashes and checks are parameters, the cipher in `Wire` is any correct one (`SomeCipherIsCorrect`: there are some), Noise in `Handshake` is symbolic.
- Handshake: handlers are atomic and peer records do not change during a run; the reconnect loop and connect requests through the coordinator are not modelled.
- Handshake.NonceReuseExactly: sequence counters are unbounded numbers taken mod 2^64 in the nonce; rekeying by age or volume is one possible step, not forced.
- SendBatch.Sender.SendIpBatch: batches do not overlap here. The code holds no lock between taking sequence numbers and the socket, so a concurrent batch, or the queue flushed when a session is established (vela-core/src/lib.rs:4524-4535), can put later sequences on the wire first; rising sequences are proved for batches one after the other.
- SendBatch: sequence numbers are unbounded, their wrap is only in `Handshake`; sent-byte counters, traffic samples and the events of the send side are not modelled.
- ReceiveCommit: the replay window enters as its accepted set, whose bitmap is in `ReplayWindow`; clock readings come with the packets.
- PathMtu: the loop that skips probe targets below the payload minimum and the message bytes of probes are not modelled.
- Membership: a snapshot is applied in one step, peer records are values in the table instead of shared objects, and scheduling reconnects afterwards is not modelled.
- Membership.Node.ApplySnapshot: when it refuses part way, peers and sessions before the refused one stay changed, as the code leaves them.
- RouteLeases: an addition is refused for a route the kernel already has and a deletion for one it does not have; releases of dropped leases run as single steps; the macOS and Windows managers are not modelled.
- Broadcast: handlers are steps on version counters, a generation that would overflow is not reached, and what a session's writer does with its watch is not modelled.
- Addresses: the address chosen at registration and its storage are not one modelled step; the pool is that of the coordinator's fixed network.
- CanonicalBytes.SignedBytesForgetOrder: says nothing of injectivity, which does not hold because empty server lists leave no bytes.
- Wire.SessionCipher.DecryptInPlace: a refused buffer is left as it was, although no caller looks at it again.
- STUN and DNS parsing, admin sessions, invites, traffic statistics, the handshake context and `vela-stack`: they would add easier members.
