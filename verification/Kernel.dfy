/** WireGuard keys, addresses and devices, and the single updates a kernel
    configuration request is made of (control.go, control_test.go). */
module Kernel {
  import opened Common

  /** An ideal SHA-256: injective, and never the all-zero digest. */
  datatype Digest = ZeroDigest | Sha256(preimage: Key)

  /** An address is its bits, most significant first. */
  datatype RawAddr = Addr(v6: bool, bits: seq<bool>)

  predicate FullWidth(a: RawAddr) {
    |a.bits| == if a.v6 then 128 else 32
  }

  type Addr = a: RawAddr | FullWidth(a) witness Addr(false, seq(32, _ => false))

  /** A masked prefix is the bits it fixes, so equal prefixes are equal values. */
  datatype Prefix = Prefix(v6: bool, bits: seq<bool>)

  predicate Contains(p: Prefix, a: Addr) {
    p.v6 == a.v6 && p.bits <= a.bits
  }

  function HostPrefix(a: Addr): Prefix {
    Prefix(a.v6, a.bits)
  }

  datatype Endpoint = Endpoint(addr: Addr, port: nat)

  /** The settings of one peer; `version` is the protocol version. */
  datatype Peer = Peer(psk: Key, endpoint: Option<Endpoint>, allowed: set<Prefix>, keepalive: nat, version: int)

  type Device = map<Key, Peer>

  /** Cryptokey routing: the kernel gives every prefix at most one owner. */
  ghost predicate UniqueOwners(d: Device) {
    forall j, k, p :: j in d && k in d && p in d[j].allowed && p in d[k].allowed ==> j == k
  }

  /** `p` at peer `k` is a candidate route for `ip` when `skip` is passed over. */
  predicate Candidate(d: Device, ip: Addr, skip: Option<Key>, k: Key, p: Prefix) {
    k in d && skip != Some(k) && p in d[k].allowed && Contains(p, ip)
  }

  /** `owner` holds a longest prefix for `ip` among the peers not passed over. */
  ghost predicate Longest(d: Device, ip: Addr, skip: Option<Key>, owner: Key, prefix: Prefix) {
    && Candidate(d, ip, skip, owner, prefix)
    && forall k, p :: Candidate(d, ip, skip, k, p) ==> |p.bits| <= |prefix.bits|
  }

  /** One effect of a configuration request; any two may be separated by a failure. */
  datatype Step =
    | CreatePeer(key: Key)
    | SetPsk(key: Key, psk: Key)
    | SetEndpoint(key: Key, endpoint: Endpoint)
    | Allow(key: Key, prefix: Prefix)
    | RemovePeer(key: Key)

  const NEW_PEER := Peer(ZERO_KEY, None, {}, 0, 1)

  /** Giving a prefix to a peer takes the equal prefix from any other peer. */
  function Transfer(d: Device, key: Key, prefix: Prefix): Device {
    map k | k in d :: d[k].(allowed := if k == key then d[k].allowed + {prefix} else d[k].allowed - {prefix})
  }

  function Perform(d: Device, s: Step): Device {
    match s
    case CreatePeer(k) => d[k := NEW_PEER]
    case SetPsk(k, psk) => if k in d then d[k := d[k].(psk := psk)] else d
    case SetEndpoint(k, e) => if k in d then d[k := d[k].(endpoint := Some(e))] else d
    case Allow(k, p) => if k in d then Transfer(d, k, p) else d
    case RemovePeer(k) => d - {k}
  }

  function PerformAll(d: Device, steps: seq<Step>): Device {
    if steps == [] then d
    else Perform(PerformAll(d, steps[..|steps| - 1]), steps[|steps| - 1])
  }

  datatype PeerConfig = PeerConfig(
    key: Key, remove: bool, updateOnly: bool, psk: Option<Key>, endpoint: Option<Endpoint>, allowed: Option<Prefix>)

  /** The updates one peer entry of a request stands for, in order. */
  function Plan(d: Device, c: PeerConfig): seq<Step> {
    if c.remove then [RemovePeer(c.key)]
    else if c.key !in d && c.updateOnly then []
    else
      (if c.key in d then [] else [CreatePeer(c.key)])
      + (if c.psk.Some? then [SetPsk(c.key, c.psk.value)] else [])
      + (if c.endpoint.Some? then [SetEndpoint(c.key, c.endpoint.value)] else [])
      + (if c.allowed.Some? then [Allow(c.key, c.allowed.value)] else [])
  }

  lemma HostPrefixHoldsOneAddress(a: Addr, b: Addr)
    requires Contains(HostPrefix(a), b)
    ensures a == b
  {
    assert a.bits == b.bits[..|a.bits|];
  }

  lemma SameLengthSamePrefix(p: Prefix, q: Prefix, ip: Addr)
    requires Contains(p, ip) && Contains(q, ip) && |p.bits| == |q.bits|
    ensures p == q
  {
    assert p.bits == ip.bits[..|p.bits|] == q.bits;
  }

  /** With one owner per prefix the longest route is unique. */
  lemma LongestIsUnique(d: Device, ip: Addr, skip: Option<Key>, k: Key, p: Prefix, j: Key, q: Prefix)
    requires UniqueOwners(d) && Longest(d, ip, skip, k, p) && Longest(d, ip, skip, j, q)
    ensures k == j && p == q
  {
    SameLengthSamePrefix(p, q, ip);
  }

  datatype OwnerResult = Ambiguous | Unowned | Owned(owner: Key, prefix: Prefix)

  /** The longest-prefix scan of controlOwner. The peers, and the prefixes of one
      peer, are visited in any order. */
  method ControlOwner(d: Device, ip: Addr, skip: Key) returns (r: OwnerResult)
    ensures r.Owned? ==> Longest(d, ip, Some(skip), r.owner, r.prefix)
    ensures r.Owned? ==> forall k, p :: Candidate(d, ip, Some(skip), k, p) && |p.bits| == |r.prefix.bits| ==> k == r.owner && p == r.prefix
    ensures r.Unowned? ==> forall k, p :: !Candidate(d, ip, Some(skip), k, p)
    ensures r.Ambiguous? ==> !UniqueOwners(d)
  {
    r := Unowned;
    var todo := d.Keys - {skip};
    while todo != {}
      invariant todo <= d.Keys - {skip} && !r.Ambiguous?
      invariant r.Owned? ==> Candidate(d, ip, Some(skip), r.owner, r.prefix) && r.owner !in todo
      invariant forall k, p :: Candidate(d, ip, Some(skip), k, p) && k !in todo ==>
                                 r.Owned? && |p.bits| <= |r.prefix.bits| && (|p.bits| == |r.prefix.bits| ==> k == r.owner && p == r.prefix)
      decreases todo
    {
      var k :| k in todo;
      todo := todo - {k};
      var left := d[k].allowed;
      while left != {}
        invariant left <= d[k].allowed && !r.Ambiguous?
        invariant r.Owned? ==> Candidate(d, ip, Some(skip), r.owner, r.prefix) && r.owner !in todo
        invariant forall j, p :: Candidate(d, ip, Some(skip), j, p) && j !in todo && !(j == k && p in left) ==>
                                   r.Owned? && |p.bits| <= |r.prefix.bits| && (|p.bits| == |r.prefix.bits| ==> j == r.owner && p == r.prefix)
        decreases left
      {
        var p :| p in left;
        left := left - {p};
        if Contains(p, ip) && (r.Owned? ==> |p.bits| >= |r.prefix.bits|) {
          if r.Owned? && |p.bits| == |r.prefix.bits| {
            SameLengthSamePrefix(p, r.prefix, ip);
            if r.owner != k {
              return Ambiguous;
            }
          }
          r := Owned(k, p);
        }
      }
    }
  }
}
