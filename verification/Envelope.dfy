/** The fixed-size envelope around every packet (secure.go). The cipher is ideal: a box
    opens with the key and nonce it was sealed with, and with no other. */
module Envelope {
  import opened Common
  import opened Rate

  type Byte = b: nat | b < 256

  type PublicKey = k: seq<Byte> | |k| == 32 witness seq(32, _ => 0)
  type SessionId = k: seq<Byte> | |k| == 16 witness seq(16, _ => 0)
  type Nonce = k: seq<Byte> | |k| == NONCE witness seq(NONCE, _ => 0)

  /** A datagram too short for a nonce. */
  type Stub = k: seq<Byte> | |k| < NONCE

  const NONCE := 24
  const TAG := 16
  const MAX_PEERS := 128
  const HEADER := 90
  const PACKET := 512
  const INNER := PACKET - NONCE - TAG - 2
  const BUDGET := 128 * 1024

  /* ----- numbers as bytes, the highest first ----- */

  function BigEndian(n: nat, size: nat): (s: seq<Byte>)
    ensures |s| == size
  {
    if size == 0 then [] else BigEndian(n / 256, size - 1) + [n % 256]
  }

  function Number(s: seq<Byte>): nat {
    if s == [] then 0 else Number(s[..|s| - 1]) * 256 + s[|s| - 1]
  }

  function Power(size: nat): nat {
    if size == 0 then 1 else 256 * Power(size - 1)
  }

  lemma {:induction false} NumberOfBytes(n: nat, size: nat)
    requires n < Power(size)
    ensures Number(BigEndian(n, size)) == n
  {
    if size > 0 {
      NumberOfBytes(n / 256, size - 1);
      assert BigEndian(n, size)[..size - 1] == BigEndian(n / 256, size - 1);
    }
  }

  lemma {:induction false} BytesOfNumber(s: seq<Byte>)
    ensures Number(s) < Power(|s|) && BigEndian(Number(s), |s|) == s
    decreases |s|
  {
    if s != [] {
      BytesOfNumber(s[..|s| - 1]);
      assert s == s[..|s| - 1] + [s[|s| - 1]];
    }
  }

  /* ----- the encrypted record ----- */

  function Zeros(n: nat): (s: seq<Byte>)
    ensures |s| == n
  {
    seq(n, _ => 0)
  }

  function Record(inner: seq<Byte>): (record: seq<Byte>)
    requires |inner| <= INNER
    ensures |record| == INNER + 2
  {
    BigEndian(|inner|, 2) + inner + Zeros(INNER - |inner|)
  }

  lemma RecordParts(inner: seq<Byte>)
    requires |inner| <= INNER
    ensures var record, n := Record(inner), |inner|;
      Number(record[..2]) == n && record[2..2 + n] == inner && forall i :: 2 + n <= i < |record| ==> record[i] == 0
  {
    assert Power(2) == 256 * Power(1) && Power(1) == 256 * Power(0);
    NumberOfBytes(|inner|, 2);
    assert Record(inner)[..2] == BigEndian(|inner|, 2);
  }

  lemma RecordUnique(a: seq<Byte>, b: seq<Byte>)
    requires |a| <= INNER && |b| <= INNER && Record(a) == Record(b)
    ensures a == b
  {
    RecordParts(a);
    RecordParts(b);
  }

  /** A record with a good length and clean padding is the record of what it holds. */
  lemma RecordOfParts(record: seq<Byte>, n: nat)
    requires |record| == INNER + 2 && n == Number(record[..2]) && n <= INNER
    requires forall i :: 2 + n <= i < |record| ==> record[i] == 0
    ensures record == Record(record[2..2 + n])
  {
    BytesOfNumber(record[..2]);
    assert record == record[..2] + record[2..2 + n] + record[2 + n..];
    assert record[2 + n..] == Zeros(INNER - n);
  }

  /* ----- the packet in the record ----- */

  datatype Kind = Request | Reply | Data

  function KindByte(kind: Kind): Byte {
    match kind case Request => 1 case Reply => 2 case Data => 3
  }

  datatype Header = Header(kind: Kind, from: PublicKey, to: PublicKey, id: SessionId, counter: nat)
  {
    predicate Fits() {
      counter < Power(8)
    }

    function Bytes(): (s: seq<Byte>)
      ensures |s| == HEADER
    {
      [2, KindByte(kind)] + from + to + id + BigEndian(counter, 8)
    }
  }

  /** The size of a packet, by kind; a tag follows the body of a data packet. */
  predicate RightSize(kind: Kind, counter: nat, size: nat) {
    match kind
    case Request => counter == 0 && size == HEADER + 96
    case Reply => counter == 0 && size == HEADER + 48
    case Data => size > HEADER + TAG
  }

  /** What a node accepts as the header of a packet for it. */
  function Parse(data: seq<Byte>, self: PublicKey): (h: Option<Header>)
  {
    if |data| < HEADER || |data| > INNER || data[0] != 2 || data[1] < 1 || data[1] > 3 then None else
    var kind := if data[1] == 1 then Request else if data[1] == 2 then Reply else Data;
    var h := Header(kind, data[2..34], data[34..66], data[66..82], Number(data[82..90]));
    if h.to != self || h.from == self || h.id == Zeros(16) || h.counter > Power(8) - 2 || !RightSize(kind, h.counter, |data|) then None
    else Some(h)
  }

  lemma BytesParts(h: Header, rest: seq<Byte>)
    ensures var data := h.Bytes() + rest;
      && data[0] == 2 && data[1] == KindByte(h.kind) && data[2..34] == h.from && data[34..66] == h.to && data[66..82] == h.id
      && data[82..90] == BigEndian(h.counter, 8)
  {
  }

  /** A packet is read as it was written, and accepted exactly when it is addressed
      properly, numbered within the cipher's range and of the size of its kind. */
  lemma ParseWritten(h: Header, rest: seq<Byte>, self: PublicKey)
    requires h.Fits()
    ensures var data := h.Bytes() + rest;
      var fine := |data| <= INNER && h.to == self != h.from && h.id != Zeros(16) && h.counter <= Power(8) - 2 && RightSize(h.kind, h.counter, |data|);
      Parse(data, self) == if fine then Some(h) else None
  {
    BytesParts(h, rest);
    NumberOfBytes(h.counter, 8);
  }

  /** Nothing else is accepted. */
  lemma WrittenParse(data: seq<Byte>, self: PublicKey)
    requires Parse(data, self).Some?
    ensures var h := Parse(data, self).value; h.Fits() && data == h.Bytes() + data[HEADER..] && Names(data, h.from, self)
  {
    BytesOfNumber(data[82..90]);
    assert data[..HEADER] == data[..2] + data[2..34] + data[34..66] + data[66..82] + data[82..90];
    assert data == data[..HEADER] + data[HEADER..];
  }

  /** What is accepted, in bytes: a request of 186, an answer of 138, both with counter
      zero, and data of 107 to 470, to another node than its sender. */
  lemma SizesByKind(data: seq<Byte>, self: PublicKey)
    requires Parse(data, self).Some?
    ensures var h := Parse(data, self).value; match h.kind
      case Request => |data| == 186 && h.counter == 0 && data[1] == 1
      case Reply => |data| == 138 && h.counter == 0 && data[1] == 2
      case Data => 107 <= |data| <= 470 && h.counter <= 0xFFFF_FFFF_FFFF_FFFE && data[1] == 3
    ensures data[0] == 2 && Parse(data, self).value.to == self != Parse(data, self).value.from
  {
    assert Power(8) == 0x1_0000_0000_0000_0000 by {
      assert Power(4) == 256 * (256 * (256 * (256 * Power(0))));
      assert Power(8) == 256 * (256 * (256 * (256 * Power(4))));
    }
  }

  /** Every packet the node writes fits into an envelope: requests, replies, and data
      with a body of 1 to 364 bytes. */
  lemma PacketsFit(kind: Kind, counter: nat, size: nat)
    requires RightSize(kind, counter, size)
    ensures HEADER <= size && (size <= INNER <==> kind != Data || size - HEADER - TAG <= 364)
  {
  }

  /* ----- datagrams ----- */

  /** What follows the nonce: text sealed from one node to another, or anything else. */
  datatype Box = Sealed(from: PublicKey, to: PublicKey, nonce: Nonce, text: seq<Byte>) | Other(bytes: seq<Byte>)

  datatype Datagram = Short(bytes: Stub) | Datagram(nonce: Nonce, box: Box)
  {
    function Size(): nat {
      if Short? then |bytes| else |nonce| + (if box.Sealed? then |box.text| + TAG else |box.bytes|)
    }

    function Opened(from: PublicKey, to: PublicKey): Option<seq<Byte>> {
      if Datagram? && box.Sealed? && box.from == from && box.to == to && box.nonce == nonce then Some(box.text) else None
    }
  }

  /** A packet that names its sender and its recipient. */
  predicate Names(inner: seq<Byte>, from: PublicKey, to: PublicKey) {
    HEADER <= |inner| <= INNER && inner[2..34] == from && inner[34..66] == to
  }

  ghost predicate Carries(d: Datagram, from: PublicKey, to: PublicKey, inner: seq<Byte>) {
    d.Size() == PACKET && Names(inner, from, to) && d.Opened(from, to) == Some(Record(inner))
  }

  /** A datagram says one thing at most, from one node to one node. */
  lemma CarriesOne(d: Datagram, from: PublicKey, to: PublicKey, inner: seq<Byte>, from': PublicKey, to': PublicKey, inner': seq<Byte>)
    requires Carries(d, from, to, inner) && Carries(d, from', to', inner')
    ensures from == from' && to == to' && inner == inner'
  {
    RecordUnique(inner, inner');
  }

  method AllZero(record: seq<Byte>, start: nat) returns (zero: bool)
    requires start <= |record|
    ensures zero <==> forall i :: start <= i < |record| ==> record[i] == 0
  {
    for i := start to |record|
      invariant forall j :: start <= j < i ==> record[j] == 0
    {
      if record[i] != 0 { return false; }
    }
    zero := true;
  }

  /** What the record holds, if it is what it should be. */
  method Check(record: seq<Byte>, from: PublicKey, to: PublicKey) returns (inner: Option<seq<Byte>>)
    requires |record| == INNER + 2
    ensures inner.Some? ==> Names(inner.value, from, to) && record == Record(inner.value)
    ensures forall x :: Names(x, from, to) && record == Record(x) ==> inner == Some(x)
  {
    forall x | Names(x, from, to) && record == Record(x)
      ensures Number(record[..2]) == |x| && record[2..2 + |x|] == x && forall i :: 2 + |x| <= i < |record| ==> record[i] == 0
    {
      RecordParts(x);
    }
    var n := Number(record[..2]);
    if n < HEADER || n > INNER { return None; }
    var held := record[2..2 + n];
    if held[2..34] != from || held[34..66] != to { return None; }
    var clean := AllZero(record, 2 + n);
    if !clean { return None; }
    RecordOfParts(record, n);
    inner := Some(held);
  }

  /** So many attempts to open a box were charged to the limiter at this time. */
  ghost predicate Charged(before: seq<Admission>, after: seq<Admission>, now: Time, attempts: nat) {
    && |after| == |before| + attempts && after[..|before|] == before
    && forall i :: |before| <= i < |after| ==> after[i].at == now
  }

  class Envelopes {
    const self: PublicKey
    const peers: set<PublicKey>
    const rate: SecureRate

    ghost predicate Valid()
      reads this, rate
    {
      rate.Valid() && rate.limit == BUDGET
    }

    /** The peers but the node itself, the zero key and the keys with which no secret
        can be agreed on; none without a private key of its own or if there are too
        many. */
    constructor (self: PublicKey, keyed: bool, peers: seq<PublicKey>, refused: set<PublicKey>)
      ensures Valid() && fresh(rate) && rate.clock == 0 && this.self == self
      ensures this.peers == if !keyed || |peers| > MAX_PEERS then {} else (set p | p in peers) - {self, Zeros(32)} - refused
    {
      this.self := self;
      this.peers := if !keyed || |peers| > MAX_PEERS then {} else (set p | p in peers) - {self, Zeros(32)} - refused;
      rate := new SecureRate(BUDGET);
    }

    /** Every datagram has the same size, whatever it carries. */
    method Wrap(peer: PublicKey, inner: seq<Byte>, nonce: Nonce) returns (d: Option<Datagram>)
      ensures d.Some? <==> peer in peers && HEADER <= |inner| <= INNER
      ensures d.Some? ==> d.value.Size() == PACKET && d.value.Datagram? && d.value.nonce == nonce && d.value.Opened(self, peer) == Some(Record(inner))
      ensures d.Some? && Names(inner, self, peer) ==> Carries(d.value, self, peer, inner)
    {
      if peer !in peers || |inner| < HEADER || |inner| > INNER { return None; }
      d := Some(Datagram(nonce, Sealed(self, peer, nonce, Record(inner))));
    }

    /** Try the peers' keys one after the other, in any order, each on the budget. */
    method Unwrap(d: Datagram, now: Time) returns (inner: Option<seq<Byte>>, ghost tried: set<PublicKey>)
      requires Valid() && rate.clock <= now
      modifies rate
      ensures Valid() && rate.clock <= now
      ensures inner.Some? ==> exists p :: p in tried && Carries(d, p, self, inner.value)
      ensures inner.Some? ==> 90 <= |inner.value| <= 470 && inner.value[2..34] in peers && inner.value[34..66] == self
      ensures inner.None? ==> (forall p, x :: p in peers ==> !Carries(d, p, self, x)) || (now < rate.until && rate.used == BUDGET)
      ensures tried <= peers && Charged(old(rate.admitted), rate.admitted, now, |tried|) && (d.Size() != PACKET ==> tried == {})
      ensures forall p :: p in peers && p !in tried && d.Size() == PACKET ==>
                (exists q :: q in tried && d.Opened(q, self).Some?) || (now < rate.until && rate.used == BUDGET)
    {
      inner, tried := None, {};
      if d.Size() != PACKET { return; }
      var left := peers;
      while left != {}
        invariant Valid() && rate.clock <= now && left <= peers && inner.None? && tried == peers - left
        invariant forall p, x :: p in tried ==> !Carries(d, p, self, x)
        invariant Charged(old(rate.admitted), rate.admitted, now, |tried|)
        decreases |left|
      {
        var peer :| peer in left;
        var ok := rate.Allow(now);
        if !ok { return; }
        left, tried := left - {peer}, tried + {peer};
        var text := d.Opened(peer, self);
        if text.Some? {
          inner := Check(text.value, peer, self);
          return;
        }
      }
    }
  }

  /** From one node to another: what was sent, or nothing; and nothing at any node it
      was not meant for. */
  method Deliver(a: Envelopes, b: Envelopes, peer: PublicKey, inner: seq<Byte>, nonce: Nonce, now: Time) returns (got: Option<seq<Byte>>)
    requires b.Valid() && b.rate.clock <= now
    modifies b.rate
    ensures got.Some? ==> got.value == inner && b.self == peer && peer in a.peers && a.self in b.peers && Names(inner, a.self, peer)
    ensures b.self == peer && peer in a.peers && a.self in b.peers && Names(inner, a.self, peer) ==>
              got == Some(inner) || (now < b.rate.until && b.rate.used == BUDGET)
  {
    var d := a.Wrap(peer, inner, nonce);
    if d.None? { return None; }
    ghost var tried;
    got, tried := b.Unwrap(d.value, now);
    if got.Some? {
      ghost var p :| p in b.peers && Carries(d.value, p, b.self, got.value);
      RecordUnique(inner, got.value);
    }
  }
}
