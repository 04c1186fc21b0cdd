/** Every single kernel update and every journal edit of the controller keeps the
    state recoverable, so a crash may fall between any two of them. */
module Recovery {
  import opened Common
  import opened Kernel
  import opened Journal

  /* ----- how the parts of recoverability carry over ----- */

  lemma UpdateKeepsUnique(d: Device, k: Key, p: Peer)
    requires UniqueOwners(d)
    requires k in d ==> p.allowed == d[k].allowed
    requires k !in d ==> p.allowed == {}
    ensures UniqueOwners(d[k := p])
  {
  }

  lemma TransferKeepsUnique(d: Device, k: Key, p: Prefix)
    requires UniqueOwners(d)
    ensures UniqueOwners(Transfer(d, k, p))
  {
  }

  /** Nothing changes for the stable peers when nothing newly lent or returned. */
  lemma SameLoansSameOverlay(d: Device, j: Records, d': Device, j': Records, b: Device)
    requires Overlays(d, j, b)
    requires forall k :: k in b ==> k in d' && k !in j' && d'[k] == d[k]
    requires forall k :: k in d' ==> k in b || k in j'
    requires forall m, k, p :: Lent(d', j', m, k, p) <==> Lent(d, j, m, k, p)
    ensures Overlays(d', j', b)
  {
    forall k | k in b ensures SamePeer(d', j', b, k) {
      assert SamePeer(d, j, b, k);
      forall p | p in b[k].allowed && p !in d'[k].allowed ensures exists m :: Lent(d', j', m, k, p) {
        var m :| Lent(d, j, m, k, p);
        assert Lent(d', j', m, k, p);
      }
    }
  }

  /* ----- device updates, journal unchanged ----- */

  /** Changing settings of a managed peer other than its prefixes. */
  lemma SettingKeepsRecoverable(l: Local, j: Records, d: Device, b: Device, k: Key, p: Peer)
    requires Recoverable(l, j, d, b) && k in j && j[k].phase != Planning
    requires PeerFits(p, j[k])
    requires k in d ==> p.allowed == d[k].allowed
    requires k !in d ==> p.allowed == {}
    ensures Recoverable(l, j, d[k := p], b)
  {
    var d' := d[k := p];
    UpdateKeepsUnique(d, k, p);
    assert Overlays(d', j, b) by { SameLoansSameOverlay(d, j, d', j, b); }
    forall m | m in j ensures Fits(d', m, j[m], b) {
      assert Fits(d, m, j[m], b);
    }
  }

  /** The host prefix goes to the managed peer: from its recorded owner when the
      owner held exactly that prefix, and from nobody otherwise. */
  lemma TakeHostKeepsRecoverable(l: Local, j: Records, d: Device, b: Device, k: Key)
    requires Recoverable(l, j, d, b) && k in j && k in d
    requires j[k].phase == Adding && Sha256(d[k].psk) == j[k].hash
    ensures Recoverable(l, j, Transfer(d, k, HostPrefix(j[k].ip)), b)
    ensures forall x :: x in d && x != k && (j[k].Exact() ==> x != j[k].owner) ==> Transfer(d, k, HostPrefix(j[k].ip))[x] == d[x]
  {
    TransferKeepsUnique(d, k, HostPrefix(j[k].ip));
    TakeHostOverlay(l, j, d, b, k);
    TakeHostTakesFromOwner(l, j, d, b, k);
    forall m | m in j ensures Fits(Transfer(d, k, HostPrefix(j[k].ip)), m, j[m], b) {
      TakeHostFits(l, j, d, b, k, m);
    }
  }

  /** Only the recorded owner can lose the prefix. */
  lemma TakeHostTakesFromOwner(l: Local, j: Records, d: Device, b: Device, k: Key)
    requires Recoverable(l, j, d, b) && k in j && k in d
    ensures forall x :: x in d && x != k && (j[k].Exact() ==> x != j[k].owner) ==> Transfer(d, k, HostPrefix(j[k].ip))[x] == d[x]
  {
    HostHolders(l, j, d, b, k);
    forall x | x in d && x != k && HostPrefix(j[k].ip) !in d[x].allowed ensures Transfer(d, k, HostPrefix(j[k].ip))[x] == d[x] {
      assert d[x].allowed - {HostPrefix(j[k].ip)} == d[x].allowed;
    }
  }

  lemma TakeHostFits(l: Local, j: Records, d: Device, b: Device, k: Key, m: Key)
    requires Recoverable(l, j, d, b) && k in j && k in d && m in j
    requires j[k].phase == Adding && Sha256(d[k].psk) == j[k].hash
    ensures Fits(Transfer(d, k, HostPrefix(j[k].ip)), m, j[m], b)
  {
    HostHolders(l, j, d, b, k);
    assert Fits(d, m, j[m], b) && ValidRecord(l, j, k, j[k]);
  }

  lemma TakeHostOverlay(l: Local, j: Records, d: Device, b: Device, k: Key)
    requires Recoverable(l, j, d, b) && k in j && k in d
    ensures Overlays(Transfer(d, k, HostPrefix(j[k].ip)), j, b)
  {
    forall x | x in b ensures SamePeer(Transfer(d, k, HostPrefix(j[k].ip)), j, b, x) {
      TakeHostOverlayAt(l, j, d, b, k, x);
    }
  }

  lemma TakeHostOverlayAt(l: Local, j: Records, d: Device, b: Device, k: Key, x: Key)
    requires Recoverable(l, j, d, b) && k in j && k in d && x in b
    ensures SamePeer(Transfer(d, k, HostPrefix(j[k].ip)), j, b, x)
  {
    var r, host := j[k], HostPrefix(j[k].ip);
    var d' := Transfer(d, k, host);
    HostHolders(l, j, d, b, k);
    assert ValidRecord(l, j, k, r) && Fits(d, k, r, b);
    assert r.Exact() ==> r.prefix == host by { if r.Exact() { ExactIsHost(r); } }
    assert SamePeer(d, j, b, x);
    forall m, q | Lent(d', j, m, x, q) ensures q in b[x].allowed {
      if m != k { assert Lent(d, j, m, x, q); }
    }
    forall q | q in b[x].allowed && q !in d'[x].allowed ensures exists m :: Lent(d', j, m, x, q) {
      if q in d[x].allowed {
        assert Lent(d', j, k, x, q);
      } else {
        var m :| Lent(d, j, m, x, q);
        if m != k { LoansDiffer(l, j, m, k); }
        assert Lent(d', j, m, x, q);
      }
    }
  }

  /** A prefix lent to one managed peer is not the host prefix of another. */
  lemma LoansDiffer(l: Local, j: Records, m: Key, k: Key)
    requires ValidRecords(l, j) && m in j && k in j && m != k && j[m].Exact()
    ensures j[m].prefix != HostPrefix(j[k].ip)
  {
    assert ValidRecord(l, j, m, j[m]);
    if j[m].prefix == HostPrefix(j[k].ip) {
      HostPrefixHoldsOneAddress(j[k].ip, j[m].ip);
    }
  }

  /** Who can hold a managed host prefix at all. */
  lemma HostHolders(l: Local, j: Records, d: Device, b: Device, k: Key)
    requires Recoverable(l, j, d, b) && k in j
    ensures forall x :: x in d && HostPrefix(j[k].ip) in d[x].allowed ==> x == k || (j[k].Exact() && x == j[k].owner)
  {
    var r, host := j[k], HostPrefix(j[k].ip);
    forall x | x in d && host in d[x].allowed && x != k ensures r.Exact() && x == r.owner {
      OtherCandidate(l, j, d, b, k, x, host);
      assert Fits(d, k, r, b);
      SameLengthSamePrefix(r.prefix, host, r.ip);
      assert r.prefix in b[r.owner].allowed && r.prefix in b[x].allowed;
    }
  }

  /** An exact host prefix goes back to its recorded owner. */
  lemma ReturnHostKeepsRecoverable(l: Local, j: Records, d: Device, b: Device, k: Key)
    requires Recoverable(l, j, d, b) && k in j && j[k].Exact()
    requires j[k].phase == Restoring || j[k].phase == Aborting
    ensures Recoverable(l, j, Transfer(d, j[k].owner, HostPrefix(j[k].ip)), b)
  {
    var r, host := j[k], HostPrefix(j[k].ip);
    var d' := Transfer(d, r.owner, host);
    TransferKeepsUnique(d, r.owner, host);
    HostHolders(l, j, d, b, k);
    assert ValidRecord(l, j, k, r) && Fits(d, k, r, b);
    forall x | x in b ensures SamePeer(d', j, b, x) {
      ReturnHostOverlayAt(l, j, d, b, k, x);
    }
    forall m | m in j ensures Fits(d', m, j[m], b) {
      assert Fits(d, m, j[m], b);
    }
  }

  lemma ReturnHostOverlayAt(l: Local, j: Records, d: Device, b: Device, k: Key, x: Key)
    requires Recoverable(l, j, d, b) && k in j && j[k].Exact() && x in b
    ensures SamePeer(Transfer(d, j[k].owner, HostPrefix(j[k].ip)), j, b, x)
  {
    var r, host := j[k], HostPrefix(j[k].ip);
    var d' := Transfer(d, r.owner, host);
    HostHolders(l, j, d, b, k);
    assert ValidRecord(l, j, k, r) && Fits(d, k, r, b);
    ExactIsHost(r);
    assert host in b[r.owner].allowed;
    assert SamePeer(d, j, b, x);
    forall m, q | Lent(d', j, m, x, q) ensures q in b[x].allowed {
      assert Lent(d, j, m, x, q);
    }
    forall q | q in b[x].allowed ensures q in d'[x].allowed || exists m :: Lent(d', j, m, x, q) {
      if q !in d[x].allowed && !(x == r.owner && q == host) {
        var m :| Lent(d, j, m, x, q);
        assert Lent(d', j, m, x, q);
      }
    }
  }

  /** Removing a managed peer that holds no lent prefix. */
  lemma RemoveKeepsRecoverable(l: Local, j: Records, d: Device, b: Device, k: Key)
    requires Recoverable(l, j, d, b) && k in j
    requires j[k].Exact() && k in d ==> d[k].allowed == {}
    ensures Recoverable(l, j, d - {k}, b)
  {
    var d' := d - {k};
    assert Overlays(d', j, b) by { SameLoansSameOverlay(d, j, d', j, b); }
    forall m | m in j ensures Fits(d', m, j[m], b) {
      assert Fits(d, m, j[m], b);
    }
  }

  /** A reboot recreates the baseline, whatever was in progress. */
  lemma RebootKeepsRecoverable(l: Local, j: Records, d: Device, b: Device)
    requires Recoverable(l, j, d, b)
    ensures Recoverable(l, j, b, b)
  {
    forall x | x in b ensures x !in j && SamePeer(b, j, b, x) {
      assert forall m :: m in j ==> Fits(d, m, j[m], b);
    }
    forall m | m in j ensures Fits(b, m, j[m], b) {
      assert Fits(d, m, j[m], b);
    }
  }

  /* ----- journal edits, device unchanged ----- */

  /** A record moves to another phase or hash that still fits the device. */
  lemma EditKeepsRecoverable(l: Local, j: Records, d: Device, b: Device, k: Key, r: Record)
    requires Recoverable(l, j, d, b) && k in j
    requires r.ip == j[k].ip && r.owner == j[k].owner && r.prefix == j[k].prefix
    requires ValidRecord(l, j, k, r)
    requires r.phase == Planning ==> k !in d
    requires k in d ==> PeerFits(d[k], r)
    ensures Recoverable(l, j[k := r], d, b)
  {
    var j' := j[k := r];
    EditOverlay(j, d, b, k, r);
    EditStillValid(l, j, k, r);
    forall m | m in j' ensures Fits(d, m, j'[m], b) {
      assert Fits(d, k, j[k], b) && Fits(d, m, j[m], b);
    }
  }

  lemma EditOverlay(j: Records, d: Device, b: Device, k: Key, r: Record)
    requires Overlays(d, j, b) && k in j && r.ip == j[k].ip && r.owner == j[k].owner && r.prefix == j[k].prefix
    ensures Overlays(d, j[k := r], b)
  {
    var j' := j[k := r];
    assert forall m :: m in j' <==> m in j;
    SameLoansSameOverlay(d, j, d, j', b);
  }

  lemma EditStillValid(l: Local, j: Records, k: Key, r: Record)
    requires ValidRecords(l, j) && k in j && r.ip == j[k].ip && r.owner == j[k].owner && r.prefix == j[k].prefix && ValidRecord(l, j, k, r)
    ensures ValidRecords(l, j[k := r])
  {
    var j' := j[k := r];
    forall m | m in j' ensures ValidRecord(l, j', m, j'[m]) {
      assert ValidRecord(l, j, m, j[m]);
    }
  }

  /** The peer being undone fits its undoing record, present or not. */
  lemma UndoingKeepsRecoverable(l: Local, j: Records, d: Device, b: Device, k: Key)
    requires Recoverable(l, j, d, b) && k in j
    ensures Recoverable(l, j[k := Undoing(j[k])], d, b)
  {
    assert Fits(d, k, j[k], b) && ValidRecord(l, j, k, j[k]);
    EditKeepsRecoverable(l, j, d, b, k, Undoing(j[k]));
  }

  /** A new record for a peer that is nowhere on the device. */
  lemma AddKeepsRecoverable(l: Local, j: Records, d: Device, b: Device, k: Key, r: Record)
    requires Recoverable(l, j, d, b) && k !in j && k !in d
    requires ValidRecord(l, j, k, r) && Longest(b, r.ip, None, r.owner, r.prefix)
    requires forall m :: m in j ==> j[m].ip != r.ip
    ensures Recoverable(l, j[k := r], d, b)
  {
    var j' := j[k := r];
    assert k !in b && r.owner in b;
    assert Overlays(d, j', b) by { SameLoansSameOverlay(d, j, d, j', b); }
    forall m | m in j' ensures Fits(d, m, j'[m], b) && ValidRecord(l, j', m, j'[m]) {
      if m != k {
        assert Fits(d, m, j[m], b) && ValidRecord(l, j, m, j[m]);
        assert j[m].owner in b;
      }
    }
  }

  /** A record is dropped once its peer is gone. */
  lemma DropKeepsRecoverable(l: Local, j: Records, d: Device, b: Device, k: Key)
    requires Recoverable(l, j, d, b) && k !in d
    ensures Recoverable(l, j - {k}, d, b)
  {
    var j' := j - {k};
    assert Overlays(d, j', b) by { SameLoansSameOverlay(d, j, d, j', b); }
    forall m | m in j' ensures Fits(d, m, j'[m], b) && ValidRecord(l, j', m, j'[m]) {
      assert Fits(d, m, j[m], b) && ValidRecord(l, j, m, j[m]);
    }
  }

  /** An empty journal recovers to the device itself, and to nothing else. */
  lemma EmptyIsBaseline(l: Local, d: Device, b: Device)
    requires UniqueOwners(d)
    ensures Recoverable(l, map[], d, b) <==> d == b
  {
    var none: Records := map[];
    if d == b {
      assert forall k :: k in b ==> SamePeer(d, none, b, k);
    }
    if Recoverable(l, none, d, b) {
      forall k | k in b ensures k in d && d[k] == b[k] {
        assert SamePeer(d, none, b, k);
        assert forall m, p :: !Lent(d, none, m, k, p);
        assert d[k].allowed == b[k].allowed;
      }
      assert d.Keys == b.Keys;
    }
  }

  /* ----- undoing one record ----- */

  predicate HoldsHost(d: Device, k: Key) {
    k in d && d[k].allowed != {}
  }

  /** Give an exact host prefix back, if the managed peer still holds it. */
  function Returned(d: Device, k: Key, r: Record): Device {
    if r.Exact() && HoldsHost(d, k) then Transfer(d, r.owner, HostPrefix(r.ip)) else d
  }

  /** The device after a complete restore. */
  function Undone(d: Device, k: Key, r: Record): Device {
    Returned(d, k, r) - {k}
  }

  /** A record that passes the opening check passes every later check of its own
      restore. */
  lemma UndoPassesChecks(l: Local, j: Records, d: Device, k: Key)
    requires ValidRecords(l, j) && k in j && UniqueOwners(d) && Restorable(d, k, j[k])
    ensures Check(d, k, Undoing(j[k]))
    ensures Check(Returned(d, k, j[k]), k, Undoing(j[k])) && UniqueOwners(Returned(d, k, j[k]))
    ensures Check(Undone(d, k, j[k]), k, Undoing(j[k])) && UniqueOwners(Undone(d, k, j[k]))
    ensures j[k].Exact() ==> !HoldsHost(Returned(d, k, j[k]), k)
  {
    var r, u := j[k], Undoing(j[k]);
    assert ValidRecord(l, j, k, r);
    TransferKeepsUnique(d, r.owner, HostPrefix(r.ip));
    var d1, d2 := Returned(d, k, r), Undone(d, k, r);
    if r.Exact() {
      ExactIsHost(r);
      if HoldsHost(d, k) {
        assert Candidate(d1, r.ip, Some(ZERO_KEY), r.owner, r.prefix);
        assert Longest(d1, r.ip, Some(ZERO_KEY), r.owner, r.prefix);
      }
      assert Longest(d2, r.ip, Some(ZERO_KEY), r.owner, r.prefix);
    } else {
      assert forall i, p :: Candidate(d2, r.ip, Some(k), i, p) <==> Candidate(d, r.ip, Some(k), i, p);
      assert Longest(d2, r.ip, Some(k), r.owner, r.prefix);
    }
  }

  /* ----- several managed peers ----- */

  /** Restoring one record changes neither the peer of another record nor the
      verdict on it. */
  lemma UndoneLeavesOthers(l: Local, j: Records, d: Device, k: Key, m: Key)
    requires ValidRecords(l, j) && k in j && m in j && k != m
    requires UniqueOwners(d) && Restorable(d, k, j[k])
    ensures m in Undone(d, k, j[k]) <==> m in d
    ensures m in d ==> Undone(d, k, j[k])[m] == d[m]
    ensures Restorable(Undone(d, k, j[k]), m, j[m]) <==> Restorable(d, m, j[m])
  {
    var d' := Undone(d, k, j[k]);
    assert ValidRecord(l, j, k, j[k]) && ValidRecord(l, j, m, j[m]);
    UndonePeers(l, j, d, k);
    var e := Expected(d, m, j[m]);
    forall s | s == ZERO_KEY || s == m
      ensures forall i, p :: Longest(d', e.ip, Some(s), i, p) <==> Longest(d, e.ip, Some(s), i, p)
    {
      SameCandidates(l, j, d, k, m, Some(s));
    }
  }

  /** What a restore does to each peer. */
  lemma UndonePeers(l: Local, j: Records, d: Device, k: Key)
    requires ValidRecords(l, j) && k in j && UniqueOwners(d) && Restorable(d, k, j[k])
    ensures var d', r := Undone(d, k, j[k]), j[k];
      && d'.Keys == d.Keys - {k}
      && (forall x :: x in d' && x != r.owner ==> d'[x] == d[x])
      && r.owner in d'
      && d'[r.owner] == (if r.Exact() && HoldsHost(d, k) then d[r.owner].(allowed := d[r.owner].allowed + {r.prefix}) else d[r.owner])
  {
    var r := j[k];
    assert ValidRecord(l, j, k, r);
    if r.Exact() {
      ExactIsHost(r);
      assert HoldsHost(d, k) ==> r.prefix in d[k].allowed;
    }
  }

  lemma SameCandidates(l: Local, j: Records, d: Device, k: Key, m: Key, skip: Option<Key>)
    requires ValidRecords(l, j) && k in j && m in j && k != m
    requires UniqueOwners(d) && Restorable(d, k, j[k])
    ensures forall i, p :: Candidate(Undone(d, k, j[k]), j[m].ip, skip, i, p) <==> Candidate(d, j[m].ip, skip, i, p)
  {
    var d', r := Undone(d, k, j[k]), j[k];
    assert ValidRecord(l, j, k, r);
    UndonePeers(l, j, d, k);
    assert !Contains(HostPrefix(r.ip), j[m].ip) by {
      if Contains(HostPrefix(r.ip), j[m].ip) { HostPrefixHoldsOneAddress(r.ip, j[m].ip); }
    }
    if r.Exact() { ExactIsHost(r); }
    assert k in d ==> PeerFits(d[k], Expected(d, k, r));
  }

  /** A restore after others extends what has been laid bare by one record. */
  lemma UndoneUncovers(l: Local, j: Records, d0: Device, gone: Records, d: Device, k: Key)
    requires ValidRecords(l, j) && k in j && UniqueOwners(d) && Restorable(d, k, j[k])
    requires Overlays(d0, gone, d) && k !in gone
    requires (k in d0 <==> k in d) && (k in d ==> d[k] == d0[k])
    ensures Overlays(d0, gone[k := j[k]], Undone(d, k, j[k]))
  {
    var d', gone', r := Undone(d, k, j[k]), gone[k := j[k]], j[k];
    UndonePeers(l, j, d, k);
    assert ValidRecord(l, j, k, r);
    if r.Exact() { ExactIsHost(r); }
    forall x | x in d' ensures SamePeer(d0, gone', d', x) {
      assert SamePeer(d0, gone, d, x);
      forall m, p | Lent(d0, gone', m, x, p) ensures p in d'[x].allowed {
        if m != k { assert Lent(d0, gone, m, x, p); }
      }
      forall p | p in d'[x].allowed && p !in d0[x].allowed ensures exists m :: Lent(d0, gone', m, x, p) {
        if p in d[x].allowed {
          var m :| Lent(d0, gone, m, x, p);
          assert Lent(d0, gone', m, x, p);
        } else {
          assert Lent(d0, gone', k, x, p);
        }
      }
    }
  }

  /* ----- adding a direct peer ----- */

  /** Passing over the all-zero key changes no route that could be taken over. */
  ghost predicate ZeroKeyHidesNothing(l: Local, b: Device) {
    forall ip, o, p :: l.usable(ip) && Longest(b, ip, Some(ZERO_KEY), o, p) && o != l.public ==> Longest(b, ip, None, o, p)
  }

  /** An unmanaged host has on the device the route it has in the baseline. */
  lemma SameStableRoute(l: Local, j: Records, d: Device, b: Device, ip: Addr, o: Key, p: Prefix)
    requires Recoverable(l, j, d, b)
    requires forall m :: m in j ==> j[m].ip != ip
    ensures Longest(d, ip, Some(ZERO_KEY), o, p) <==> Longest(b, ip, Some(ZERO_KEY), o, p)
  {
    forall i, q ensures Candidate(d, ip, Some(ZERO_KEY), i, q) <==> Candidate(b, ip, Some(ZERO_KEY), i, q) {
      if Candidate(d, ip, Some(ZERO_KEY), i, q) && i in j {
        assert Fits(d, i, j[i], b);
        HostPrefixHoldsOneAddress(j[i].ip, ip);
      }
      if i in b {
        assert SamePeer(d, j, b, i);
        if q in b[i].allowed && q !in d[i].allowed && Contains(q, ip) {
          var m :| Lent(d, j, m, i, q);
          assert ValidRecord(l, j, m, j[m]);
          ExactIsHost(j[m]);
          HostPrefixHoldsOneAddress(j[m].ip, ip);
        }
      }
    }
  }

  /** The device after the first `n` updates of the request that adds a peer. */
  function AddState(d: Device, c: PeerConfig, n: nat): Device
    requires c.psk.Some? && c.endpoint.Some? && c.allowed.Some?
  {
    var k := c.key;
    if n == 0 then d
    else if n == 1 then d[k := NEW_PEER]
    else if n == 2 then d[k := NEW_PEER.(psk := c.psk.value)]
    else if n == 3 then d[k := NEW_PEER.(psk := c.psk.value, endpoint := c.endpoint)]
    else Transfer(d[k := NEW_PEER.(psk := c.psk.value, endpoint := c.endpoint)], k, c.allowed.value)
  }

  predicate AddsPeer(d: Device, c: PeerConfig) {
    c.key !in d && !c.remove && !c.updateOnly && c.psk.Some? && c.endpoint.Some? && c.allowed.Some?
  }

  lemma AddPlan(d: Device, c: PeerConfig, done: nat)
    requires AddsPeer(d, c) && done <= |Plan(d, c)|
    ensures |Plan(d, c)| == 4
    ensures PerformAll(d, Plan(d, c)) == AddState(d, c, 4)
    ensures PerformAll(d, Plan(d, c)[..done]) == AddState(d, c, done)
  {
    var k := c.key;
    var s0, s1, s2, s3 := CreatePeer(k), SetPsk(k, c.psk.value), SetEndpoint(k, c.endpoint.value), Allow(k, c.allowed.value);
    FourSteps(d, s0, s1, s2, s3);
    assert Plan(d, c) == [s0, s1, s2, s3];
    assert d[k := NEW_PEER][k := AddState(d, c, 2)[k]] == AddState(d, c, 2);
    assert AddState(d, c, 2)[k := AddState(d, c, 3)[k]] == AddState(d, c, 3);
  }

  /** Every prefix of the request that adds a direct peer. */
  lemma AddStateKeepsRecoverable(l: Local, j: Records, d: Device, b: Device, c: PeerConfig, n: nat)
    requires Recoverable(l, j, d, b) && AddsPeer(d, c) && c.key in j && j[c.key].phase == Adding && n <= 4
    requires c.allowed == Some(HostPrefix(j[c.key].ip)) && Sha256(c.psk.value) == j[c.key].hash
    ensures Recoverable(l, j, AddState(d, c, n), b)
  {
    if 1 <= n <= 3 {
      SettingKeepsRecoverable(l, j, d, b, c.key, AddState(d, c, n)[c.key]);
    } else if n == 4 {
      AddStateKeepsRecoverable(l, j, d, b, c, 3);
      TakeHostKeepsRecoverable(l, j, AddState(d, c, 3), b, c.key);
    }
  }

  lemma FourSteps(d: Device, s0: Step, s1: Step, s2: Step, s3: Step)
    ensures var plan := [s0, s1, s2, s3];
      var d1 := Perform(d, s0); var d2 := Perform(d1, s1); var d3 := Perform(d2, s2);
      && PerformAll(d, plan[..0]) == d && PerformAll(d, plan[..1]) == d1 && PerformAll(d, plan[..2]) == d2
      && PerformAll(d, plan[..3]) == d3 && PerformAll(d, plan[..4]) == PerformAll(d, plan) == Perform(d3, s3)
  {
    var plan := [s0, s1, s2, s3];
    assert plan[..4] == plan && plan[..4][..3] == plan[..3] && plan[..3][..2] == plan[..2] && plan[..2][..1] == plan[..1] && plan[..1][..0] == [];
  }
}
