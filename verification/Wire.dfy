/** The wire format: the 26-byte header that is also the associated data of every sealed
    payload, the packet decoders, and the framing of sealed packets. The cipher itself is a
    parameter of which only correctness is asked. */
module Wire {
  import opened Base
  import opened BigEndian

  const HEADER_LEN := 26
  const PROTOCOL_VERSION: Byte := 2
  const TAG_LEN := 16

  type Bytes = seq<Byte>

  function Magic(): Bytes {
    [0x56, 0x45, 0x4C, 0x41]
  }

  datatype PacketType =
    | Probe | ProbeResponse | Handshake | Data | KeepAlive
    | DiagnosticPing | DiagnosticPong | KeepAliveAck | MtuProbe | MtuProbeAck

  datatype ProtoError =
    | Truncated
    | InvalidMagic
    | UnsupportedVersion(version: Byte)
    | UnknownPacketType(code: Byte)
    | TrailingBytes
    | LengthMismatch
    | PayloadTooLarge

  datatype Header = Header(
    version: Byte,
    kind: PacketType,
    flags: U16,
    session: U64,
    sequence: U64,
    payloadLen: U16)

  datatype WirePacket = WirePacket(header: Header, payload: Bytes)

  function Code(kind: PacketType): (code: Byte)
    ensures 1 <= code <= 10 && TypeOf(code) == Ok(kind)
  {
    match kind
    case Probe => 1
    case ProbeResponse => 2
    case Handshake => 3
    case Data => 4
    case KeepAlive => 5
    case DiagnosticPing => 6
    case DiagnosticPong => 7
    case KeepAliveAck => 8
    case MtuProbe => 9
    case MtuProbeAck => 10
  }

  function TypeOf(code: Byte): Result<PacketType, ProtoError> {
    match code
    case 1 => Ok(Probe)
    case 2 => Ok(ProbeResponse)
    case 3 => Ok(Handshake)
    case 4 => Ok(Data)
    case 5 => Ok(KeepAlive)
    case 6 => Ok(DiagnosticPing)
    case 7 => Ok(DiagnosticPong)
    case 8 => Ok(KeepAliveAck)
    case 9 => Ok(MtuProbe)
    case 10 => Ok(MtuProbeAck)
    case _ => Err(UnknownPacketType(code))
  }

  function NewHeader(kind: PacketType, session: U64, sequence: U64, payloadLen: nat): Result<Header, ProtoError> {
    if payloadLen > 0xFFFF then Err(PayloadTooLarge)
    else Ok(Header(PROTOCOL_VERSION, kind, 0, session, sequence, payloadLen))
  }

  // ---------------------------------------------------------------- header

  function EncodeHeader(h: Header): (o: Bytes)
    ensures |o| == HEADER_LEN
  {
    Magic() + [h.version, Code(h.kind)] + Be(h.flags, 2) + Be(h.session, 8) + Be(h.sequence, 8) + Be(h.payloadLen, 2)
  }

  function DecodeHeader(input: Bytes): Result<Header, ProtoError> {
    if |input| < HEADER_LEN then Err(Truncated)
    else if input[..4] != Magic() then Err(InvalidMagic)
    else if input[4] != PROTOCOL_VERSION then Err(UnsupportedVersion(input[4]))
    else
      match TypeOf(input[5])
      case Err(e) => Err(e)
      case Ok(kind) =>
        Read16(input[6..8]);
        Read64(input[8..16]);
        Read64(input[16..24]);
        Read16(input[24..26]);
        Ok(Header(input[4], kind, Number(input[6..8]), Number(input[8..16]), Number(input[16..24]), Number(input[24..26])))
  }

  /** Where each field of an encoded header lies. */
  lemma {:induction false} Fields(h: Header, rest: Bytes)
    ensures var o := EncodeHeader(h) + rest;
      && o[..4] == Magic() && o[4] == h.version && o[5] == Code(h.kind)
      && o[6..8] == Be(h.flags, 2) && o[8..16] == Be(h.session, 8)
      && o[16..24] == Be(h.sequence, 8) && o[24..26] == Be(h.payloadLen, 2)
      && o[..HEADER_LEN] == EncodeHeader(h) && o[HEADER_LEN..] == rest
  {
  }

  /** Decoding what was encoded gives it back, whatever follows it; another version is refused. */
  lemma {:induction false} DecodeEncodedHeader(h: Header, rest: Bytes)
    ensures DecodeHeader(EncodeHeader(h) + rest) ==
      if h.version == PROTOCOL_VERSION then Ok(h) else Err(UnsupportedVersion(h.version))
  {
    Fields(h, rest);
    RoundTrip16(h.flags);
    RoundTrip64(h.session);
    RoundTrip64(h.sequence);
    RoundTrip16(h.payloadLen);
  }

  /** Encoding what was decoded gives the bytes back. */
  lemma {:induction false} EncodeDecodedHeader(input: Bytes)
    requires DecodeHeader(input).Ok?
    ensures EncodeHeader(DecodeHeader(input).value) == input[..HEADER_LEN]
    ensures DecodeHeader(input).value.version == PROTOCOL_VERSION
  {
    var h := DecodeHeader(input).value;
    Read16(input[6..8]);
    Read64(input[8..16]);
    Read64(input[16..24]);
    Read16(input[24..26]);
    CodeOfType(input[5]);
    Slices(input);
  }

  lemma {:induction false} Slices(input: Bytes)
    requires |input| >= HEADER_LEN
    ensures input[..HEADER_LEN] ==
      input[..4] + [input[4], input[5]] + input[6..8] + input[8..16] + input[16..24] + input[24..26]
  {
  }

  lemma {:induction false} CodeOfType(code: Byte)
    requires TypeOf(code).Ok?
    ensures Code(TypeOf(code).value) == code
  {
  }

  /** A growable byte buffer. */
  class Buffer {
    var data: Bytes

    constructor (data: Bytes)
      ensures this.data == data
    {
      this.data := data;
    }

    method Put(s: Bytes)
      modifies this
      ensures data == old(data) + s
    {
      data := data + s;
    }

    /** Appends the fields of a header in wire order. */
    method PutHeader(h: Header)
      modifies this
      ensures data == old(data) + EncodeHeader(h)
    {
      Put(Magic());
      Put([h.version]);
      Put([Code(h.kind)]);
      Put(Be(h.flags, 2));
      Put(Be(h.session, 8));
      Put(Be(h.sequence, 8));
      Put(Be(h.payloadLen, 2));
      assert [h.version] + [Code(h.kind)] == [h.version, Code(h.kind)];
      assert data == old(data) + EncodeHeader(h);
    }
  }

  method CopyInto(a: array<Byte>, at: nat, s: Bytes)
    requires at + |s| <= a.Length
    modifies a
    ensures a[..] == old(a[..at]) + s + old(a[at + |s|..])
  {
    for i := 0 to |s|
      invariant a[..] == old(a[..at]) + s[..i] + old(a[at + i..])
    {
      a[at + i] := s[i];
    }
    assert s[..|s|] == s;
  }

  /** The associated data: the header written field by field into a fixed array, always under the
      current version. */
  method EncodedHeader(h: Header) returns (bytes: array<Byte>)
    ensures fresh(bytes) && bytes[..] == EncodeHeader(h.(version := PROTOCOL_VERSION))
  {
    bytes := new Byte[HEADER_LEN](i => 0);
    CopyInto(bytes, 0, Magic());
    bytes[4] := PROTOCOL_VERSION;
    bytes[5] := Code(h.kind);
    assert bytes[..6] == Magic() + [PROTOCOL_VERSION, Code(h.kind)];
    CopyInto(bytes, 6, Be(h.flags, 2));
    assert bytes[..8] == Magic() + [PROTOCOL_VERSION, Code(h.kind)] + Be(h.flags, 2);
    CopyInto(bytes, 8, Be(h.session, 8));
    CopyInto(bytes, 16, Be(h.sequence, 8));
    assert bytes[..24] == Magic() + [PROTOCOL_VERSION, Code(h.kind)] + Be(h.flags, 2) + Be(h.session, 8) + Be(h.sequence, 8);
    CopyInto(bytes, 24, Be(h.payloadLen, 2));
    assert bytes[..] == bytes[..26];
  }

  // ---------------------------------------------------------------- packets

  function EncodePacket(p: WirePacket): Result<Bytes, ProtoError> {
    if |p.payload| != p.header.payloadLen then Err(LengthMismatch) else Ok(EncodeHeader(p.header) + p.payload)
  }

  /** What the decoders below make of their input. */
  function DecodePacket(input: Bytes): Result<WirePacket, ProtoError> {
    match DecodeHeader(input)
    case Err(e) => Err(e)
    case Ok(h) =>
      var end := HEADER_LEN + h.payloadLen;
      if |input| < end then Err(Truncated)
      else if |input| != end then Err(TrailingBytes)
      else Ok(WirePacket(h, input[HEADER_LEN..end]))
  }

  /** The copying decoder: the payload is a new array. */
  method Decode(input: array<Byte>) returns (r: Result<(Header, array<Byte>), ProtoError>)
    ensures match DecodePacket(input[..])
      case Ok(p) => r.Ok? && r.value.0 == p.header && fresh(r.value.1) && r.value.1[..] == p.payload
      case Err(e) => r.Err? && r.error == e
  {
    var header := DecodeHeader(input[..]);
    if header.Err? { return Err(header.error); }
    var h := header.value;
    var end := HEADER_LEN + h.payloadLen;
    if input.Length < end { return Err(Truncated); }
    if input.Length != end { return Err(TrailingBytes); }
    var payload := new Byte[h.payloadLen](i => 0);
    CopyInto(payload, 0, input[HEADER_LEN..end]);
    return Ok((h, payload));
  }

  /** A range of bytes held by reference, as a slice of shared bytes is. */
  datatype View = View(store: array<Byte>, from: nat, to: nat) {
    predicate Valid() {
      from <= to <= store.Length
    }

    function Contents(): Bytes
      requires Valid()
      reads store
    {
      store[from..to]
    }
  }

  /** The slicing decoder: the payload stays where it is. */
  method DecodeBytes(input: View) returns (r: Result<(Header, View), ProtoError>)
    requires input.Valid()
    ensures match DecodePacket(input.Contents())
      case Ok(p) => r.Ok? && r.value.0 == p.header && r.value.1.Valid() && r.value.1.store == input.store && r.value.1.Contents() == p.payload
      case Err(e) => r.Err? && r.error == e
  {
    var header := DecodeHeader(input.Contents());
    if header.Err? { return Err(header.error); }
    var h := header.value;
    var end := HEADER_LEN + h.payloadLen;
    if input.to - input.from < end { return Err(Truncated); }
    if input.to - input.from != end { return Err(TrailingBytes); }
    assert input.Contents()[HEADER_LEN..end] == input.store[input.from + HEADER_LEN..input.to];
    return Ok((h, View(input.store, input.from + HEADER_LEN, input.to)));
  }

  /** The decoder of the data path, which already has the header and splits the buffer in place. */
  method DecodeDataPacket(input: Buffer, h: Header) returns (r: Result<Buffer, ProtoError>)
    requires DecodeHeader(input.data) == Ok(h)
    modifies input
    ensures match DecodePacket(old(input.data))
      case Ok(p) => r.Ok? && fresh(r.value) && r.value.data == p.payload && p.header == h && input.data == EncodeHeader(h)
      case Err(e) => r.Err? && r.error == e && input.data == old(input.data)
  {
    var end := HEADER_LEN + h.payloadLen;
    if |input.data| < end { return Err(Truncated); }
    if |input.data| != end { return Err(TrailingBytes); }
    EncodeDecodedHeader(input.data);
    var payload := new Buffer(input.data[HEADER_LEN..]);
    input.data := input.data[..HEADER_LEN];
    return Ok(payload);
  }

  /** The decoders accept exactly the encodings of packets of this version, and give back the
      packet: each direction undoes the other on every input. */
  lemma {:induction false} DecodesExactlyEncodings(input: Bytes, p: WirePacket)
    ensures DecodePacket(input) == Ok(p) <==> EncodePacket(p) == Ok(input) && p.header.version == PROTOCOL_VERSION
  {
    if DecodePacket(input) == Ok(p) {
      EncodeDecodedHeader(input);
      assert p.payload == input[HEADER_LEN..];
      assert input == input[..HEADER_LEN] + input[HEADER_LEN..];
    }
    if EncodePacket(p) == Ok(input) && p.header.version == PROTOCOL_VERSION {
      DecodeEncodedHeader(p.header, p.payload);
      Fields(p.header, p.payload);
      assert input[HEADER_LEN..HEADER_LEN + p.header.payloadLen] == p.payload;
    }
  }

  // ---------------------------------------------------------------- sealed packets

  type Key = nat

  /** An authenticated cipher with detached tags: seal gives ciphertext and tag. */
  datatype Aead = Aead(
    seal: (Key, Bytes, Bytes, Bytes) -> (Bytes, Bytes),
    open: (Key, Bytes, Bytes, Bytes, Bytes) -> Option<Bytes>)

  /** Correctness: lengths are kept, and opening yields a text exactly for what sealing it gives. */
  ghost predicate Correct(c: Aead) {
    && (forall k, n, a, p :: |c.seal(k, n, a, p).0| == |p| && |c.seal(k, n, a, p).1| == TAG_LEN)
    && (forall k, n, a, x, t, p :: c.open(k, n, a, x, t) == Some(p) <==> (x, t) == c.seal(k, n, a, p))
  }

  /** There are such ciphers: the text itself under a tag of zeros. */
  lemma {:induction false} SomeCipherIsCorrect() returns (c: Aead)
    ensures Correct(c)
  {
    var zeros: Bytes := seq(TAG_LEN, i => 0);
    c := Aead((k, n, a, p) => (p, zeros), (k, n, a, x, t) => if t == zeros then Some(x) else None);
  }

  function Nonce(sequence: U64): Bytes {
    [0, 0, 0, 0] + Be(sequence, 8)
  }

  lemma {:induction false} NonceDistinct(a: U64, b: U64)
    ensures Nonce(a) == Nonce(b) <==> a == b
  {
    if Nonce(a) == Nonce(b) {
      assert Be(a, 8) == Nonce(a)[4..] && Be(b, 8) == Nonce(b)[4..];
      RoundTrip64(a);
      RoundTrip64(b);
    }
  }

  function Sealed(c: Aead, key: Key, sequence: U64, aad: Bytes, plain: Bytes): Bytes {
    var (x, t) := c.seal(key, Nonce(sequence), aad, plain);
    x + t
  }

  /** What opening a ciphertext with its tag at the end gives. */
  function Opened(c: Aead, key: Key, sequence: U64, aad: Bytes, sealed: Bytes): Option<Bytes> {
    if |sealed| < TAG_LEN then None
    else c.open(key, Nonce(sequence), aad, sealed[..|sealed| - TAG_LEN], sealed[|sealed| - TAG_LEN..])
  }

  lemma {:induction false} OpenedExactly(c: Aead, key: Key, sequence: U64, aad: Bytes, sealed: Bytes, plain: Bytes)
    requires Correct(c)
    ensures Opened(c, key, sequence, aad, sealed) == Some(plain) <==> sealed == Sealed(c, key, sequence, aad, plain)
  {
  }

  /** The keys of one end of a session. */
  datatype SessionCipher = SessionCipher(aead: Aead, tx: Key, rx: Key) {

    /** Seals the buffer from `from` on in place and hands back the tag. */
    method EncryptInPlaceDetached(sequence: U64, aad: Bytes, buffer: Buffer, from: nat) returns (tag: Bytes)
      requires from <= |buffer.data|
      modifies buffer
      ensures buffer.data + tag == old(buffer.data[..from]) + Sealed(aead, tx, sequence, aad, old(buffer.data[from..]))
    {
      var (x, t) := aead.seal(tx, Nonce(sequence), aad, buffer.data[from..]);
      buffer.data := buffer.data[..from] + x;
      tag := t;
    }

    /** Opens the buffer in place and cuts the tag off, or leaves it as it was. */
    method DecryptInPlace(sequence: U64, aad: Bytes, buffer: Buffer) returns (ok: bool)
      modifies buffer
      ensures ok == Opened(aead, rx, sequence, aad, old(buffer.data)).Some?
      ensures buffer.data == if ok then Opened(aead, rx, sequence, aad, old(buffer.data)).value else old(buffer.data)
    {
      if |buffer.data| < TAG_LEN { return false; }
      var split := |buffer.data| - TAG_LEN;
      var plain := aead.open(rx, Nonce(sequence), aad, buffer.data[..split], buffer.data[split..]);
      if plain.None? { return false; }
      buffer.data := plain.value;
      return true;
    }
  }

  /** The bytes of a sealed packet under a header. */
  function SealedPacket(c: Aead, key: Key, h: Header, plain: Bytes): Bytes {
    EncodeHeader(h) + Sealed(c, key, h.sequence, EncodeHeader(h), plain)
  }

  /** Builds the datagram of one IP packet; refuses exactly those too long for the length field. */
  method PrepareDataPacket(cipher: SessionCipher, session: U64, sequence: U64, packet: Bytes)
    returns (r: Result<Bytes, ProtoError>)
    ensures r == if |packet| + TAG_LEN > 0xFFFF then Err(PayloadTooLarge)
                 else Ok(SealedPacket(cipher.aead, cipher.tx, Header(PROTOCOL_VERSION, Data, 0, session, sequence, |packet| + TAG_LEN), packet))
  {
    var header := NewHeader(Data, session, sequence, |packet| + TAG_LEN);
    if header.Err? { return Err(header.error); }
    var h := header.value;
    var aad := EncodedHeader(h);
    var wire := new Buffer([]);
    wire.PutHeader(h);
    wire.Put(packet);
    assert wire.data[..HEADER_LEN] == EncodeHeader(h) && wire.data[HEADER_LEN..] == packet;
    var tag := cipher.EncryptInPlaceDetached(sequence, aad[..], wire, HEADER_LEN);
    wire.Put(tag);
    return Ok(wire.data);
  }

  /** What the receive path makes of a datagram: its header and the opened payload. */
  function Received(c: Aead, key: Key, input: Bytes): Option<(Header, Bytes)> {
    match DecodePacket(input)
    case Err(_) => None
    case Ok(p) =>
      match Opened(c, key, p.header.sequence, EncodeHeader(p.header.(version := PROTOCOL_VERSION)), p.payload)
      case None => None
      case Some(plain) => Some((p.header, plain))
  }

  method Receive(cipher: SessionCipher, input: Buffer) returns (r: Option<(Header, Bytes)>)
    modifies input
    ensures r == Received(cipher.aead, cipher.rx, old(input.data))
  {
    var header := DecodeHeader(input.data);
    if header.Err? { return None; }
    var payload := DecodeDataPacket(input, header.value);
    if payload.Err? { return None; }
    var aad := EncodedHeader(header.value);
    var ok := cipher.DecryptInPlace(header.value.sequence, aad[..], payload.value);
    return if ok then Some((header.value, payload.value.data)) else None;
  }

  /** A datagram yields a header and a text exactly when it is that text sealed under that header
      with the key, the header's own sequence number and the header's own bytes. */
  lemma {:induction false} ReceivesExactlySealed(c: Aead, key: Key, input: Bytes, h: Header, plain: Bytes)
    requires Correct(c)
    ensures Received(c, key, input) == Some((h, plain)) <==>
      h.version == PROTOCOL_VERSION && h.payloadLen == |plain| + TAG_LEN && input == SealedPacket(c, key, h, plain)
  {
    var sealed := Sealed(c, key, h.sequence, EncodeHeader(h), plain);
    assert |sealed| == |plain| + TAG_LEN by {
      var (x, t) := c.seal(key, Nonce(h.sequence), EncodeHeader(h), plain);
      assert |x| == |plain| && |t| == TAG_LEN;
    }
    DecodesExactlyEncodings(input, WirePacket(h, sealed));
    OpenedExactly(c, key, h.sequence, EncodeHeader(h), sealed, plain);
    if Received(c, key, input) == Some((h, plain)) {
      var p := DecodePacket(input).value;
      DecodesExactlyEncodings(input, p);
      OpenedExactly(c, key, h.sequence, EncodeHeader(h), p.payload, plain);
    }
  }

  /** What one end prepares, the other end, whose receive key is its send key, gets back. */
  lemma {:induction false} PreparedRoundTrips(c: Aead, sender: SessionCipher, receiver: SessionCipher, h: Header, packet: Bytes)
    requires Correct(c) && sender.aead == c && receiver.aead == c && sender.tx == receiver.rx
    requires h.version == PROTOCOL_VERSION && h.payloadLen == |packet| + TAG_LEN
    ensures Received(receiver.aead, receiver.rx, SealedPacket(sender.aead, sender.tx, h, packet)) == Some((h, packet))
  {
    ReceivesExactlySealed(c, receiver.rx, SealedPacket(c, sender.tx, h, packet), h, packet);
  }
}
