/** The recovery journal of control.go, the check of one record against a device,
    and what it means that a journal can bring a device back to its baseline. */
module Journal {
  import opened Common
  import opened Kernel

  datatype Phase = Planning | Adding | Active | Rekeying | Restoring | Aborting

  datatype Record = Record(ip: Addr, owner: Key, prefix: Prefix, hash: Digest, phase: Phase, next: Option<Digest>) {
    /** The recorded owner holds exactly the host address. */
    predicate Exact() { |prefix.bits| == |ip.bits| }

    predicate Partial() { phase == Adding || phase == Aborting }

    predicate Installed() { phase == Active || phase == Rekeying }
  }

  type Records = map<Key, Record>

  /** The local interface: its own key, and the addresses that may be managed. */
  datatype Local = Local(public: Key, usable: Addr -> bool)

  /** Startup validation of one record (newController). */
  predicate ValidRecord(l: Local, j: Records, k: Key, r: Record) {
    && l.usable(r.ip) && Contains(r.prefix, r.ip)
    && k != ZERO_KEY && k != l.public
    && r.owner != ZERO_KEY && r.owner != k && r.owner != l.public && r.owner !in j
    && r.hash != ZeroDigest
    && (r.phase == Rekeying ==> r.next.Some?)
    && (r.next.Some? ==> r.next.value != ZeroDigest && (r.phase == Rekeying || r.phase == Restoring))
  }

  ghost predicate ValidRecords(l: Local, j: Records) {
    && (forall k {:trigger ValidRecord(l, j, k, j[k])} :: k in j ==> ValidRecord(l, j, k, j[k]))
    && (forall k, m :: k in j && m in j && j[k].ip == j[m].ip ==> k == m)
  }

  /** What checkPeer accepts of a managed peer that is present. */
  predicate PeerFits(p: Peer, r: Record) {
    && p.keepalive == 0 && 0 <= p.version <= 1
    && (Sha256(p.psk) == r.hash || r.next == Some(Sha256(p.psk)) || (r.Partial() && p.allowed == {} && p.psk == ZERO_KEY))
    && (p.allowed == {} || p.allowed == {HostPrefix(r.ip)})
    && (p.allowed == {} ==> r.Partial() || (r.Exact() && r.phase == Restoring))
  }

  /** Passed over when the stable route is looked up: the managed peer, or nothing
      (spelt as the zero key) when the owner holds exactly the host. */
  function Skip(k: Key, r: Record): Key {
    if r.Exact() then ZERO_KEY else k
  }

  /** The stable or direct route checkPeer expects. */
  ghost predicate RouteFits(d: Device, k: Key, r: Record) {
    if r.Exact() && k in d && d[k].allowed != {} then Longest(d, r.ip, Some(ZERO_KEY), k, r.prefix)
    else Longest(d, r.ip, Some(Skip(k, r)), r.owner, r.prefix)
  }

  ghost predicate Check(d: Device, k: Key, r: Record) {
    && (r.phase == Planning ==> k !in d)
    && (r.Installed() ==> k in d)
    && (k in d ==> PeerFits(d[k], r))
    && r.owner in d
    && RouteFits(d, k, r)
  }

  method CheckPeer(d: Device, k: Key, r: Record) returns (ok: bool)
    ensures ok ==> Check(d, k, r)
    ensures UniqueOwners(d) && Check(d, k, r) ==> ok
  {
    if r.phase == Planning && k in d { return false; }
    if k !in d && r.Installed() { return false; }
    if k in d && !PeerFits(d[k], r) { return false; }
    if r.owner !in d { return false; }
    var found := ControlOwner(d, r.ip, Skip(k, r));
    var owner := if r.Exact() && k in d && d[k].allowed != {} then k else r.owner;
    ok := found == Owned(owner, r.prefix);
    if UniqueOwners(d) && Check(d, k, r) {
      LongestIsUnique(d, r.ip, Some(Skip(k, r)), owner, r.prefix, found.owner, found.prefix);
    }
  }

  /** A missing installed peer is read as one being restored: a reboot may have
      recreated the stable configuration. */
  function Expected(d: Device, k: Key, r: Record): Record {
    if r.Installed() && k !in d then r.(phase := Restoring) else r
  }

  /** The record a restore works on. */
  function Undoing(r: Record): Record {
    if r.phase == Adding then r.(phase := Aborting)
    else if r.Installed() then r.(phase := Restoring)
    else r
  }

  ghost predicate Restorable(d: Device, k: Key, r: Record) {
    Check(d, k, Expected(d, k, r))
  }

  /* ----- the baseline behind a journal ----- */

  /** Managed peer `m` now holds the exact host prefix `p` of stable peer `k`. */
  ghost predicate Lent(d: Device, j: Records, m: Key, k: Key, p: Prefix) {
    m in j && m in d && j[m].owner == k && j[m].Exact() && j[m].prefix == p && p in d[m].allowed
  }

  /** Peer `k` of `d` is peer `k` of `b`, apart from the prefixes lent out. */
  ghost predicate SamePeer(d: Device, j: Records, b: Device, k: Key)
    requires k in d && k in b
  {
    && d[k].(allowed := b[k].allowed) == b[k]
    && (forall p :: p in d[k].allowed ==> p in b[k].allowed)
    && (forall p :: p in b[k].allowed ==> p in d[k].allowed || exists m :: Lent(d, j, m, k, p))
    && (forall m, p :: Lent(d, j, m, k, p) ==> p in b[k].allowed)
  }

  /** `d` is `b` with exactly the peers of `j` laid over it. */
  ghost predicate Overlays(d: Device, j: Records, b: Device) {
    && (forall k :: k in b ==> k in d && k !in j)
    && (forall k {:trigger SamePeer(d, j, b, k)} :: k in b ==> SamePeer(d, j, b, k))
    && (forall k :: k in d ==> k in b || k in j)
  }

  /** The state of one record is one its own recovery understands. */
  ghost predicate Fits(d: Device, k: Key, r: Record, b: Device) {
    && k !in b
    && Longest(b, r.ip, None, r.owner, r.prefix)
    && (r.phase == Planning ==> k !in d)
    && (k in d ==> PeerFits(d[k], r))
  }

  /** From journal `j` and device `d`, startup can get back to baseline `b`. */
  ghost predicate Recoverable(l: Local, j: Records, d: Device, b: Device) {
    && ValidRecords(l, j)
    && UniqueOwners(d) && UniqueOwners(b)
    && (forall k {:trigger Fits(d, k, j[k], b)} :: k in j ==> Fits(d, k, j[k], b))
    && Overlays(d, j, b)
  }

  /** Every record of a recoverable state passes the check that opens a restore. */
  lemma RecoverableIsRestorable(l: Local, j: Records, d: Device, b: Device, k: Key)
    requires Recoverable(l, j, d, b) && k in j
    ensures Restorable(d, k, j[k])
  {
    var r := j[k];
    assert ValidRecord(l, j, k, r) && Fits(d, k, r, b);
    assert r.owner in b;
    RouteBelow(l, j, d, b, k);
    if r.Exact() && k in d && d[k].allowed != {} {
      assert Candidate(d, r.ip, Some(ZERO_KEY), k, r.prefix) by { ExactIsHost(r); }
    }
  }

  lemma ExactIsHost(r: Record)
    requires Contains(r.prefix, r.ip) && r.Exact()
    ensures r.prefix == HostPrefix(r.ip)
  {
    SameLengthSamePrefix(r.prefix, HostPrefix(r.ip), r.ip);
  }

  /** Seen without the managed peer, or while it holds nothing, the host address
      still belongs to the recorded owner through the recorded prefix. */
  lemma RouteBelow(l: Local, j: Records, d: Device, b: Device, k: Key)
    requires Recoverable(l, j, d, b) && k in j
    ensures !j[k].Exact() ==> Longest(d, j[k].ip, Some(k), j[k].owner, j[k].prefix)
    ensures j[k].Exact() && (k !in d || d[k].allowed == {}) ==> Longest(d, j[k].ip, Some(ZERO_KEY), j[k].owner, j[k].prefix)
  {
    var r := j[k];
    assert ValidRecord(l, j, k, r) && Fits(d, k, r, b);
    assert SamePeer(d, j, b, r.owner);
    if r.Exact() ==> k !in d || d[k].allowed == {} {
      if r.prefix !in d[r.owner].allowed {
        var m :| Lent(d, j, m, r.owner, r.prefix);
        assert ValidRecord(l, j, m, j[m]);
        ExactIsHost(j[m]);
        HostPrefixHoldsOneAddress(j[m].ip, r.ip);
        assert false;
      }
      forall i, p | Candidate(d, r.ip, Some(k), i, p)
        ensures |p.bits| <= |r.prefix.bits|
      {
        OtherCandidate(l, j, d, b, k, i, p);
      }
    }
  }

  /** Any other peer's route for a managed host is a route of the baseline. */
  lemma OtherCandidate(l: Local, j: Records, d: Device, b: Device, k: Key, i: Key, p: Prefix)
    requires Recoverable(l, j, d, b) && k in j && Candidate(d, j[k].ip, Some(k), i, p)
    ensures Candidate(b, j[k].ip, None, i, p)
  {
    if i in j {
      assert Fits(d, i, j[i], b) && PeerFits(d[i], j[i]);
      HostPrefixHoldsOneAddress(j[i].ip, j[k].ip);
      assert false;
    }
    assert i in b && SamePeer(d, j, b, i);
  }
}
