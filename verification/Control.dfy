/** The route controller of control.go: journalled, non-atomic WireGuard updates
    over a kernel and a disk that may fail or crash at every step. */
module Control {
  import opened Common
  import opened Kernel
  import opened Journal
  import opened Recovery

  datatype Outcome = Ok | Failed | Crashed

  /** What the world does at one interaction. The late forms let the step take
      effect first; `Drop` reports success without doing the rest of a request;
      `Edit` is an external writer. */
  datatype Fault = Fine | Fail | FailLate | Crash | CrashLate | Reboot | Drop | Edit(device: Device)

  /** A record removed from the file, and the device read last before. */
  datatype Removal = Removal(key: Key, record: Record, seen: Device)

  /** A request: the peer it names, the journal at the time and the device read last
      before. */
  datatype Write = Write(named: Key, journal: Records, seen: Device)

  function Dropped(was: Records, now: Records, seen: Device): set<Removal> {
    set k | k in was && k !in now :: Removal(k, was[k], seen)
  }

  /** A peer as the daemon makes them: no keepalive, a known protocol version, no prefix
      but its host, and under a recorded key or not yet set up. */
  predicate Ours(p: Peer, r: Record) {
    && p.keepalive == 0 && (p.version == 0 || p.version == 1) && p.allowed <= {HostPrefix(r.ip)}
    && (Sha256(p.psk) == r.hash || r.next == Some(Sha256(p.psk)) || (p.psk == ZERO_KEY && p.allowed == {}))
  }

  /** The request concerns a managed peer that, if it was seen, was seen as the daemon's
      own, and names it or its recorded owner. */
  ghost predicate NamedFor(x: Write, key: Key) {
    && key in x.journal && (x.named == key || x.named == x.journal[key].owner)
    && (key in x.seen ==> Ours(x.seen[key], x.journal[key]))
  }

  /** A peer that is not the daemon's own is in conflict with its record: it is never
      restored. */
  lemma ForeignConflicts(d: Device, k: Key, r: Record)
    requires k in d && !Ours(d[k], r)
    ensures !Restorable(d, k, r)
  {
    if Restorable(d, k, r) { CheckedIsOurs(d, k, Expected(d, k, r), r); }
  }

  lemma CheckedIsOurs(d: Device, k: Key, r: Record, q: Record)
    requires Check(d, k, r) && q.ip == r.ip && q.hash == r.hash && (r.next.Some? ==> q.next == r.next)
    ensures k in d ==> Ours(d[k], q)
  {
  }

  ghost predicate FairWrite(x: Write) {
    exists k :: NamedFor(x, k)
  }

  /** The direct peer is absent and the recorded owner has the recorded route. */
  ghost predicate Settles(seen: Device, key: Key, r: Record) {
    key !in seen && Check(seen, key, Undoing(r))
  }

  /** The hashes that a phase calls for. */
  predicate Shaped(r: Record) {
    && r.hash != ZeroDigest && (r.phase == Rekeying ==> r.next.Some?)
    && (r.next.Some? ==> r.next.value != ZeroDigest && (r.phase == Rekeying || r.phase == Restoring))
  }

  /** What no phase changes. */
  predicate SameBase(r: Record, q: Record) {
    r.ip == q.ip && r.owner == q.owner && r.prefix == q.prefix
  }

  /** The kernel interface, the journal file and the faults still to come. Once
      the list is used up, nothing fails. */
  class World {
    const local: Local
    const boot: Device       // The stable configuration, which a reboot recreates.
    const exclusive: bool    // No other program changes the interface.
    const honest: bool       // The kernel reports success only for what it did.
    var device: Device
    var disk: Records
    var faults: seq<Fault>
    var seen: Device         // The last device read,
    var saw: bool            // unless the last read failed.
    var drops: set<Removal>     // The records that saves have removed from the file.
    var writes: seq<Write>   // The configuration requests.

    constructor (local: Local, boot: Device, exclusive: bool, honest: bool, faults: seq<Fault>)
      ensures this.local == local && this.boot == boot && this.exclusive == exclusive && this.honest == honest && this.faults == faults
      ensures device == boot && disk == map[] && drops == {} && writes == []
    {
      this.local, this.boot, this.exclusive, this.honest, this.faults := local, boot, exclusive, honest, faults;
      device, disk, seen, saw, drops, writes := boot, map[], map[], false, {}, [];
    }

    /** Every record left the file after a read that showed it settled, and every
        request named a managed peer, seen as the daemon's own, or its recorded owner. */
    ghost predicate Fair()
      reads this`drops, this`writes
    {
      && (forall x :: x in drops ==> Settles(x.seen, x.key, x.record))
      && (forall i :: 0 <= i < |writes| ==> FairWrite(writes[i]))
    }

    ghost predicate Quiet()
      reads this
    {
      faults == []
    }

    method Next() returns (f: Fault)
      modifies this`device, this`faults
      ensures exclusive ==> device == old(device)
      ensures old(Quiet()) ==> Quiet() && f == Fine && device == old(device)
      ensures !f.Edit?
    {
      if faults == [] { return Fine; }
      f := faults[0];
      faults := faults[1..];
      if f.Edit? {
        if !exclusive { device := f.device; }
        f := Fine;
      }
    }

    method Read() returns (o: Outcome, d: Device)
      modifies this`device, this`faults, this`seen, this`saw
      ensures exclusive ==> device == old(device) || (o == Crashed && device == boot)
      ensures saw == (o == Ok) && (saw ==> d == device == seen)
      ensures old(Quiet()) ==> Quiet() && o == Ok && device == old(device)
    {
      var f := Next();
      d, saw := device, false;
      match f
      case Fine => o, seen, saw := Ok, d, true;
      case Crash => o := Crashed;
      case CrashLate => o := Crashed;
      case Reboot => o, device := Crashed, boot;
      case _ => o := Failed;
    }

    /** Replace the journal file. The rename precedes the directory sync, so a
        failed save can leave either journal behind (save). */
    method Save(j: Records) returns (o: Outcome)
      modifies this`device, this`faults, this`disk, this`drops
      ensures o == Ok ==> disk == j
      ensures if disk == j then drops == old(drops) + Dropped(old(disk), j, seen) else disk == old(disk) && drops == old(drops)
      ensures exclusive ==> device == old(device) || (o == Crashed && device == boot)
      ensures old(Quiet()) ==> Quiet() && o == Ok && device == old(device)
    {
      var f := Next();
      if f == Fine || f == FailLate || f == CrashLate {
        drops, disk := drops + Dropped(disk, j, seen), j;
      }
      match f
      case Fine => o := Ok;
      case FailLate => o := Failed;
      case CrashLate => o := Crashed;
      case Crash => o := Crashed;
      case Reboot => o, device := Crashed, boot;
      case _ => o := Failed;
    }

    /** Carry out a configuration request, update by update. */
    method Configure(c: PeerConfig, j: Records) returns (o: Outcome, ghost done: nat)
      modifies this`device, this`faults, this`writes
      ensures writes == old(writes) + [Write(c.key, j, seen)]
      ensures done <= |Plan(old(device), c)| && (honest && o == Ok ==> done == |Plan(old(device), c)|)
      ensures exclusive ==> device == PerformAll(old(device), Plan(old(device), c)[..done]) || (o == Crashed && device == boot)
      ensures old(Quiet()) ==> Quiet() && o == Ok && device == PerformAll(old(device), Plan(old(device), c))
    {
      writes := writes + [Write(c.key, j, seen)];
      o, done := Carry(Plan(device, c));
    }

    method Carry(plan: seq<Step>) returns (o: Outcome, ghost done: nat)
      modifies this`device, this`faults
      ensures done <= |plan| && (honest && o == Ok ==> done == |plan|)
      ensures exclusive ==> device == PerformAll(old(device), plan[..done]) || (o == Crashed && device == boot)
      ensures old(Quiet()) ==> Quiet() && o == Ok && device == PerformAll(old(device), plan)
    {
      done := 0;
      var i := 0;
      while i < |plan|
        invariant i == done <= |plan|
        invariant exclusive || old(Quiet()) ==> device == PerformAll(old(device), plan[..done])
        invariant old(Quiet()) ==> Quiet()
      {
        var f := Next();
        if f == Crash { return Crashed, done; }
        if f == Reboot { device := boot; return Crashed, done; }
        if f == Drop && !honest { return Ok, done; }
        if f == Fail || f == Drop { return Failed, done; }
        assert plan[..i + 1][..i] == plan[..i];
        device, done := Perform(device, plan[i]), done + 1;
        if f == FailLate { return Failed, done; }
        if f == CrashLate { return Crashed, done; }
        i := i + 1;
      }
      assert plan[..|plan|] == plan;
      var f := Next();
      match f
      case Crash => o := Crashed;
      case CrashLate => o := Crashed;
      case Reboot => o, device := Crashed, boot;
      case Fail => o := Failed;
      case FailLate => o := Failed;
      case _ => o := Ok;
    }

    /** The faults stop. */
    method Calm()
      modifies this`faults
      ensures Quiet()
    {
      faults := [];
    }
  }

  /** All new requests were made for one managed peer, and name it or its owner. */
  ghost predicate NamesOwn(was: seq<Write>, now: seq<Write>, key: Key) {
    was <= now && forall i {:trigger now[i]} :: |was| <= i < |now| ==> NamedFor(now[i], key)
  }

  class Controller {
    const w: World
    var journal: Records

    constructor (w: World)
      ensures this.w == w && journal == map[]
    {
      this.w, journal := w, map[];
    }

    /** The file on disk can bring the device back, if the process dies now. */
    ghost predicate DiskSafe()
      reads w
    {
      Recoverable(w.local, w.disk, w.device, w.boot)
    }

    /** So can the journal in memory, if the process goes on. */
    ghost predicate Safe()
      reads this, w
    {
      DiskSafe() && Recoverable(w.local, journal, w.device, w.boot)
    }

    /** After an operation: a crash loses the memory. */
    ghost predicate SafeAfter(o: Outcome)
      reads this, w
    {
      DiskSafe() && (o != Crashed ==> Safe())
    }

    /** The file would be accepted by a startup, under any external writer, and every
        record that left it did so rightly. */
    ghost predicate DiskClosed()
      reads w
    {
      ValidRecords(w.local, w.disk) && w.Fair()
    }

    /** So would the journal in memory, which backs every record in the file. */
    ghost predicate Closed()
      reads this, w
    {
      DiskClosed() && ValidRecords(w.local, journal) && forall k :: k in w.disk ==> k in journal && SameBase(w.disk[k], journal[k])
    }

    ghost predicate ClosedAfter(o: Outcome)
      reads this, w
    {
      DiskClosed() && (o != Crashed ==> Closed())
    }

    /** The journal may replace the file: what is missing in it is settled. */
    ghost predicate Savable()
      reads this, w
    {
      && DiskClosed() && ValidRecords(w.local, journal)
      && forall k :: k in w.disk ==> if k in journal then SameBase(w.disk[k], journal[k]) else Settles(w.seen, k, w.disk[k])
    }

    /** A fresh read, and the check of one record against it. */
    method Inspect(k: Key, r: Record) returns (o: Outcome, d: Device)
      requires w.exclusive ==> Safe()
      requires Closed()
      modifies w`device, w`faults, w`seen, w`saw
      ensures ClosedAfter(o)
      ensures w.exclusive ==> SafeAfter(o) && (o != Crashed ==> w.device == old(w.device))
      ensures o == Ok ==> w.saw && d == w.device == w.seen && Check(d, k, r)
      ensures old(w.Quiet()) ==> w.Quiet() && w.device == old(w.device) && o != Crashed
      ensures old(w.Quiet()) && UniqueOwners(w.device) ==> (o == Ok <==> Check(w.device, k, r))
    {
      o, d := w.Read();
      if w.exclusive { Rebooted(old(w.device)); }
      if o == Ok {
        var ok := CheckPeer(d, k, r);
        if !ok { o := Failed; }
      }
    }

    method Save() returns (o: Outcome)
      requires w.exclusive ==> Safe()
      requires Savable()
      modifies w`device, w`faults, w`disk, w`drops
      ensures DiskClosed() && (w.disk == journal || w.disk == old(w.disk))
      ensures w.exclusive ==> SafeAfter(o) && (o != Crashed ==> w.device == old(w.device))
      ensures o == Ok ==> w.disk == journal
      ensures old(w.Quiet()) ==> w.Quiet() && o == Ok && w.device == old(w.device)
    {
      o := w.Save(journal);
      if w.exclusive { Rebooted(old(w.device)); }
    }

    /** Change a record and save. */
    method Store(key: Key, r: Record) returns (o: Outcome)
      requires key in journal && SameBase(journal[key], r) && Shaped(r)
      requires w.exclusive ==> Safe() && Recoverable(w.local, journal[key := r], w.device, w.boot)
      requires Closed()
      modifies this, w`device, w`faults, w`disk, w`drops
      ensures ClosedAfter(o) && journal == old(journal)[key := r]
      ensures w.exclusive ==> SafeAfter(o) && (o != Crashed ==> w.device == old(w.device))
      ensures o == Ok ==> w.disk == journal
      ensures old(w.Quiet()) ==> w.Quiet() && o == Ok && w.device == old(w.device)
    {
      EditStaysValid(w.local, journal, key, r);
      journal := journal[key := r];
      o := Save();
    }

    /** Change a record and save, or take the change back. */
    method StoreOrNot(key: Key, r: Record) returns (o: Outcome)
      requires key in journal && SameBase(journal[key], r) && Shaped(r)
      requires w.exclusive ==> Safe() && Recoverable(w.local, journal[key := r], w.device, w.boot)
      requires Closed()
      modifies this, w`device, w`faults, w`disk, w`drops
      ensures ClosedAfter(o) && journal == if o == Ok then old(journal)[key := r] else old(journal)
      ensures w.exclusive ==> SafeAfter(o) && (o != Crashed ==> w.device == old(w.device))
      ensures o == Ok ==> w.disk == journal
      ensures old(w.Quiet()) ==> w.Quiet() && o == Ok && w.device == old(w.device)
    {
      var was := journal[key];
      assert journal[key := r][key := was] == journal;
      o := Store(key, r);
      if o != Ok { journal := journal[key := was]; }
    }

    /** At the last read the managed peer was absent or the daemon's own. */
    ghost predicate SeenOurs(key: Key)
      reads this, w
    {
      key in journal && (key in w.seen ==> Ours(w.seen[key], journal[key]))
    }

    /** A request on behalf of one managed peer. */
    method Ask(config: PeerConfig, key: Key) returns (o: Outcome, ghost done: nat)
      requires key in journal && (config.key == key || config.key == journal[key].owner)
      requires Closed() && SeenOurs(key)
      modifies w`device, w`faults, w`writes
      ensures Closed() && w.writes == old(w.writes) + [Write(config.key, journal, w.seen)] && NamesOwn(old(w.writes), w.writes, key)
      ensures done <= |Plan(old(w.device), config)| && (w.honest && o == Ok ==> done == |Plan(old(w.device), config)|)
      ensures w.exclusive ==> w.device == PerformAll(old(w.device), Plan(old(w.device), config)[..done]) || (o == Crashed && w.device == w.boot)
      ensures old(w.Quiet()) ==> w.Quiet() && o == Ok && w.device == PerformAll(old(w.device), Plan(old(w.device), config))
    {
      assert NamedFor(Write(config.key, journal, w.seen), key);
      o, done := w.Configure(config, journal);
    }

    /** Both journals survive a reboot. */
    lemma Rebooted(was: Device)
      requires Recoverable(w.local, w.disk, was, w.boot)
      ensures Recoverable(w.local, w.disk, w.boot, w.boot)
    {
      RebootKeepsRecoverable(w.local, w.disk, was, w.boot);
    }

    /* ----- Restore ----- */

    method BeginRestore(key: Key) returns (o: Outcome)
      requires key in journal && (w.exclusive ==> Safe())
      requires Closed()
      modifies this, w`device, w`faults, w`seen, w`saw, w`disk, w`drops
      ensures ClosedAfter(o)
      ensures w.exclusive ==> SafeAfter(o)
      ensures w.writes == old(w.writes)
      ensures journal == old(journal) || journal == old(journal)[key := Undoing(old(journal)[key])]
      ensures journal != old(journal) ==> w.saw && Restorable(w.seen, key, old(journal)[key])
      ensures o != Crashed && journal == old(journal) != old(journal)[key := Undoing(old(journal)[key])] ==>
                !w.saw || !UniqueOwners(w.seen) || !Restorable(w.seen, key, old(journal)[key])
      ensures o == Ok ==> w.disk == journal && journal == old(journal)[key := Undoing(old(journal)[key])]
      ensures old(w.Quiet()) ==> w.Quiet() && w.device == old(w.device)
      ensures old(w.Quiet()) && UniqueOwners(w.device) ==>
                o == if Restorable(w.device, key, old(journal)[key]) then Ok else Failed
      ensures old(w.Quiet()) && o == Failed ==> journal == old(journal) && w.disk == old(w.disk)
    {
      var d;
      var r := journal[key];
      o, d := w.Read();
      if w.exclusive { Rebooted(old(w.device)); }
      if o != Ok { return; }
      var ok := CheckPeer(d, key, Expected(d, key, r));
      if !ok { return Failed; }
      if w.exclusive { UndoingKeepsRecoverable(w.local, journal, w.device, w.boot, key); }
      assert ValidRecord(w.local, journal, key, r);
      o := Store(key, Undoing(r));
    }

    method GiveBack(key: Key) returns (o: Outcome)
      requires key in journal && (journal[key].phase == Restoring || journal[key].phase == Aborting) && journal[key].Exact()
      requires journal[key].owner in w.device
      requires w.exclusive ==> Safe() && w.disk == journal
      requires Closed() && SeenOurs(key)
      modifies w`device, w`faults, w`writes
      ensures ClosedAfter(o)
      ensures w.exclusive ==> SafeAfter(o)
      ensures w.writes == old(w.writes) + [Write(journal[key].owner, journal, w.seen)]
      ensures old(w.Quiet()) ==> w.Quiet() && o == Ok && w.device == Transfer(old(w.device), journal[key].owner, HostPrefix(journal[key].ip))
    {
      var r := journal[key];
      ghost var before, done := w.device, 0;
      var config := PeerConfig(r.owner, false, true, None, None, Some(HostPrefix(r.ip)));
      o, done := Ask(config, key);
      GiveBackPlan(before, config, done);
      if w.exclusive {
        Rebooted(before);
        ReturnHostKeepsRecoverable(w.local, journal, before, w.boot, key);
      }
    }

    method Delete(key: Key) returns (o: Outcome)
      requires key in journal
      requires w.exclusive ==> Safe() && w.disk == journal && (journal[key].Exact() ==> !HoldsHost(w.device, key))
      requires Closed() && SeenOurs(key)
      modifies w`device, w`faults, w`writes
      ensures ClosedAfter(o)
      ensures w.exclusive ==> SafeAfter(o)
      ensures w.writes == old(w.writes) + [Write(key, journal, w.seen)]
      ensures old(w.Quiet()) ==> w.Quiet() && o == Ok && w.device == old(w.device) - {key}
    {
      ghost var before, done := w.device, 0;
      var config := PeerConfig(key, true, false, None, None, None);
      o, done := Ask(config, key);
      OneStep(before, RemovePeer(key), done);
      if w.exclusive {
        Rebooted(before);
        RemoveKeepsRecoverable(w.local, journal, before, w.boot, key);
      }
    }

    /** An exact host goes back to its owner while the direct peer still exists. */
    method ReturnHost(key: Key) returns (o: Outcome)
      requires key in journal && journal[key] == Undoing(journal[key])
      requires w.exclusive ==> Safe() && w.disk == journal
      requires Closed()
      modifies w`device, w`faults, w`seen, w`saw, w`writes
      ensures old(w.Quiet()) ==> w.Quiet()
      ensures ClosedAfter(o)
      ensures w.exclusive ==> SafeAfter(o)
      ensures NamesOwn(old(w.writes), w.writes, key)
      ensures w.writes == old(w.writes) || (journal[key].Exact() && w.writes == old(w.writes) + [Write(journal[key].owner, journal, w.seen)])
      ensures old(w.Quiet()) && ValidRecords(w.local, journal) && UniqueOwners(old(w.device)) && Restorable(old(w.device), key, journal[key]) ==>
                w.Quiet() && o == Ok && w.device == Returned(old(w.device), key, journal[key])
    {
      var d;
      var r := journal[key];
      if !r.Exact() { return Ok; }
      if ValidRecords(w.local, journal) && UniqueOwners(w.device) && Restorable(w.device, key, r) { UndoPassesChecks(w.local, journal, w.device, key); }
      o, d := Inspect(key, r);
      if o == Ok { o := GiveBackHeld(key, d); }
    }

    method GiveBackHeld(key: Key, d: Device) returns (o: Outcome)
      requires key in journal && (journal[key].phase == Restoring || journal[key].phase == Aborting || journal[key].phase == Planning) && journal[key].Exact()
      requires d == w.device == w.seen && Check(d, key, journal[key])
      requires w.exclusive ==> Safe() && w.disk == journal
      requires Closed()
      modifies w`device, w`faults, w`writes
      ensures ClosedAfter(o)
      ensures w.exclusive ==> SafeAfter(o)
      ensures NamesOwn(old(w.writes), w.writes, key)
      ensures w.writes == old(w.writes) || w.writes == old(w.writes) + [Write(journal[key].owner, journal, w.seen)]
      ensures old(w.Quiet()) ==> w.Quiet()
      ensures old(w.Quiet()) && UniqueOwners(d) ==> o == Ok && w.device == Returned(d, key, journal[key])
    {
      CheckedIsOurs(d, key, journal[key], journal[key]);
      var r := journal[key];
      var found := ControlOwner(d, r.ip, ZERO_KEY);
      if found.Ambiguous? { return Failed; }
      if UniqueOwners(d) { FoundOwner(d, key, r, found); }
      o := Ok;
      if found.Owned? && found.owner == key {
        assert key in d;
        o := GiveBack(key);
      }
    }

    method RemoveDirect(key: Key) returns (o: Outcome)
      requires key in journal && journal[key] == Undoing(journal[key])
      requires w.exclusive ==> Safe() && w.disk == journal
      requires Closed()
      modifies w`device, w`faults, w`seen, w`saw, w`writes
      ensures old(w.Quiet()) ==> w.Quiet()
      ensures ClosedAfter(o)
      ensures w.exclusive ==> SafeAfter(o)
      ensures NamesOwn(old(w.writes), w.writes, key)
      ensures w.writes == old(w.writes) || (w.saw && key in w.seen && w.writes == old(w.writes) + [Write(key, journal, w.seen)])
      ensures old(w.Quiet()) && UniqueOwners(old(w.device)) && Check(old(w.device), key, journal[key])
              && (journal[key].Exact() ==> !HoldsHost(old(w.device), key)) ==>
                w.Quiet() && o == Ok && w.device == old(w.device) - {key}
    {
      var d;
      var r := journal[key];
      o, d := Inspect(key, r);
      if o != Ok { return; }
      if key in d { o := DeleteEmpty(key, d); }
    }

    /** Remove a direct peer, unless it still holds the host. */
    method DeleteEmpty(key: Key, d: Device) returns (o: Outcome)
      requires key in journal && key in d && d == w.device == w.seen && Check(d, key, journal[key])
      requires w.exclusive ==> Safe() && w.disk == journal
      requires Closed()
      modifies w`device, w`faults, w`writes
      ensures ClosedAfter(o)
      ensures w.exclusive ==> SafeAfter(o)
      ensures w.writes == old(w.writes) || w.writes == old(w.writes) + [Write(key, journal, w.seen)]
      ensures old(w.Quiet()) ==> w.Quiet()
      ensures old(w.Quiet()) && UniqueOwners(d) && (journal[key].Exact() ==> !HoldsHost(d, key)) ==> o == Ok && w.device == d - {key}
    {
      CheckedIsOurs(d, key, journal[key], journal[key]);
      var r := journal[key];
      if r.Exact() {
        var found := ControlOwner(d, r.ip, ZERO_KEY);
        if UniqueOwners(d) { FoundOwner(d, key, r, found); }
        if !found.Owned? || found.owner != r.owner { return Failed; }
        if w.exclusive { assert ValidRecord(w.local, journal, key, r); }
      }
      o := Delete(key);
    }

    /** Drop the record, after one last look. */
    method FinishRestore(key: Key) returns (o: Outcome)
      requires key in journal && journal[key] == Undoing(journal[key])
      requires w.exclusive ==> Safe()
      requires Closed()
      modifies this, w`device, w`faults, w`seen, w`saw, w`disk, w`drops
      ensures old(w.Quiet()) ==> w.Quiet()
      ensures ClosedAfter(o)
      ensures w.exclusive ==> SafeAfter(o)
      ensures journal == old(journal) || (journal == old(journal) - {key} && Settles(w.seen, key, old(journal)[key]))
      ensures key in old(w.disk) && key !in w.disk ==> Settles(w.seen, key, old(w.disk)[key])
      ensures o == Ok ==> w.disk == journal == old(journal) - {key}
      ensures old(w.Quiet()) && UniqueOwners(old(w.device)) && Check(old(w.device), key, old(journal)[key]) && key !in old(w.device) ==>
                w.Quiet() && o == Ok && w.device == old(w.device)
    {
      var d;
      var r := journal[key];
      o, d := Inspect(key, r);
      if o != Ok { return; }
      if key in d { return Failed; }
      o := Discard(key);
    }

    /** Remove a settled record and save, or put it back. */
    method Discard(key: Key) returns (o: Outcome)
      requires key in journal && Settles(w.seen, key, journal[key])
      requires w.exclusive ==> Safe() && key !in w.device
      requires Closed()
      modifies this, w`device, w`faults, w`disk, w`drops
      ensures ClosedAfter(o) && journal == if o == Ok then old(journal) - {key} else old(journal)
      ensures w.exclusive ==> SafeAfter(o) && (o != Crashed ==> w.device == old(w.device))
      ensures o == Ok ==> w.disk == journal
      ensures key in old(w.disk) && key !in w.disk ==> Settles(w.seen, key, old(w.disk)[key])
      ensures old(w.Quiet()) ==> w.Quiet() && o == Ok && w.device == old(w.device)
    {
      var r := journal[key];
      if w.exclusive { DropKeepsRecoverable(w.local, journal, w.device, w.boot, key); }
      assert (journal - {key})[key := r] == journal;
      SubJournalValid(w.local, journal, journal - {key});
      if key in w.disk { SettlesByBase(w.seen, key, r, w.disk[key]); }
      journal := journal - {key};
      o := Save();
      if o != Ok { journal := journal[key := r]; }
    }

    /** The rest of a restore, once its intent is on disk. */
    method Undo(key: Key) returns (o: Outcome)
      requires key in journal && journal[key] == Undoing(journal[key])
      requires w.exclusive ==> Safe() && w.disk == journal
      requires Closed()
      modifies this, w`device, w`faults, w`seen, w`saw, w`disk, w`drops, w`writes
      ensures ClosedAfter(o)
      ensures w.exclusive ==> SafeAfter(o)
      ensures journal == old(journal) || (journal == old(journal) - {key} && Settles(w.seen, key, old(journal)[key]))
      ensures o == Ok ==> w.disk == journal == old(journal) - {key}
      ensures NamesOwn(old(w.writes), w.writes, key)
      ensures old(w.Quiet()) ==> w.Quiet()
      ensures old(w.Quiet()) && ValidRecords(w.local, old(journal)) && UniqueOwners(old(w.device)) && Check(old(w.device), key, old(journal)[key]) ==>
                o == Ok && w.device == Undone(old(w.device), key, old(journal)[key])
    {
      if ValidRecords(w.local, journal) && UniqueOwners(w.device) && Check(w.device, key, journal[key]) {
        UndoPassesChecks(w.local, journal, w.device, key);
      }
      o := ReturnHost(key);
      if o != Ok { return; }
      o := RemoveDirect(key);
      if o != Ok { return; }
      o := FinishRestore(key);
    }

    method Restore(key: Key) returns (o: Outcome)
      requires w.exclusive ==> Safe()
      requires Closed()
      modifies this, w`device, w`faults, w`seen, w`saw, w`disk, w`drops, w`writes
      ensures ClosedAfter(o)
      ensures w.exclusive ==> SafeAfter(o)
      ensures journal == old(journal) || journal == old(journal) - {key} || (key in old(journal) && journal == old(journal)[key := Undoing(old(journal)[key])])
      ensures o == Ok ==> key !in journal && (key in old(journal) ==> w.disk == journal)
      ensures key in old(journal) && key !in journal ==> Settles(w.seen, key, old(journal)[key])
      ensures NamesOwn(old(w.writes), w.writes, key)
      ensures o != Crashed && key in journal && journal[key] != Undoing(journal[key]) ==>
                !w.saw || !UniqueOwners(w.seen) || !Restorable(w.seen, key, journal[key])
      ensures old(w.Quiet()) ==> w.Quiet()
      ensures old(w.Quiet()) && key in old(journal) && ValidRecords(w.local, old(journal)) && UniqueOwners(old(w.device)) ==>
                if Restorable(old(w.device), key, old(journal)[key])
                then o == Ok && w.device == Undone(old(w.device), key, old(journal)[key])
                else o == Failed && w.device == old(w.device) && w.disk == old(w.disk) && journal == old(journal)
    {
      if key !in journal { return Ok; }
      QuietRestore(w.local, journal, w.device, key);
      UndoingTwice(journal, key);
      o := BeginRestore(key);
      if o == Ok { o := Undo(key); }
    }

    /** Restore every record, in any order, going on after a failure. */
    method RestoreAll() returns (o: Outcome)
      requires w.exclusive ==> Safe()
      requires Closed()
      modifies this, w`device, w`faults, w`seen, w`saw, w`disk, w`drops, w`writes
      ensures ClosedAfter(o)
      ensures w.exclusive ==> SafeAfter(o)
      ensures o == Ok ==> journal == map[]
      ensures old(w.writes) <= w.writes
      ensures old(w.Quiet()) ==> w.Quiet()
      ensures old(w.Quiet()) && ValidRecords(w.local, old(journal)) && UniqueOwners(old(w.device)) ==>
                && journal == Conflicting(old(w.device), old(journal))
                && o == (if journal == map[] then Ok else Failed)
                && w.disk == (if journal == old(journal) then old(w.disk) else journal)
                && Overlays(old(w.device), Recovered(old(w.device), old(journal)), w.device)
    {
      o := Ok;
      ghost var j, d := journal, w.device;
      ghost var ideal := w.Quiet() && ValidRecords(w.local, j) && UniqueOwners(d);
      var todo := journal.Keys;
      if ideal { NothingDone(w.local, j, d); }
      while todo != {}
        invariant o != Crashed && todo <= j.Keys
        invariant w.exclusive ==> Safe()
        invariant Closed() && old(w.writes) <= w.writes
        invariant old(w.Quiet()) ==> w.Quiet()
        invariant ideal ==> Progress(w.local, j, d, todo, journal, w.device)
        invariant ideal ==> o == (if Conflicting(d, j).Keys <= todo then Ok else Failed)
        invariant ideal ==> w.disk == (if journal == j then old(w.disk) else journal)
        invariant o == Ok ==> journal.Keys <= todo
        decreases todo
      {
        var key :| key in todo;
        ghost var dev, mem := w.device, journal;
        if ideal { ProgressStep(w.local, j, d, todo, mem, dev, key); }
        var one := Restore(key);
        todo := todo - {key};
        if one == Crashed { return Crashed; }
        if one == Failed { o := Failed; }
      }
      if ideal { ProgressDone(w.local, j, d, journal, w.device); }
    }

    /* ----- Startup ----- */

    /** The validation loop of newController. */
    method Validate(j: Records) returns (ok: bool)
      ensures ok <==> ValidRecords(w.local, j)
    {
      var todo, ips := j.Keys, {};
      while todo != {}
        invariant todo <= j.Keys
        invariant forall k :: k in j && k !in todo ==> ValidRecord(w.local, j, k, j[k]) && j[k].ip in ips
        invariant forall k, m :: k in j && m in j && k !in todo && m !in todo && j[k].ip == j[m].ip ==> k == m
        invariant forall a :: a in ips ==> exists k :: k in j && k !in todo && j[k].ip == a
        decreases todo
      {
        var k :| k in todo;
        if !ValidRecord(w.local, j, k, j[k]) || j[k].ip in ips { return false; }
        todo, ips := todo - {k}, ips + {j[k].ip};
      }
      ok := true;
    }

    /** A new process: load and validate the journal, then recover before anything
        else. */
    method Start() returns (o: Outcome)
      requires w.exclusive ==> DiskSafe()
      requires w.Fair()
      modifies this, w`device, w`faults, w`seen, w`saw, w`disk, w`drops, w`writes
      ensures w.Fair() && (ValidRecords(w.local, old(w.disk)) ==> DiskClosed()) && (o == Ok ==> Closed())
      ensures w.exclusive ==> SafeAfter(o)
      ensures o == Ok ==> journal == map[]
      ensures old(w.Quiet()) && !ValidRecords(w.local, old(w.disk)) ==> o == Failed && w.disk == old(w.disk) && w.device == old(w.device)
      ensures old(w.Quiet()) && ValidRecords(w.local, old(w.disk)) && UniqueOwners(old(w.device)) ==>
                && w.disk == Conflicting(old(w.device), old(w.disk))
                && o == (if w.disk == map[] then Ok else Failed)
                && Overlays(old(w.device), Recovered(old(w.device), old(w.disk)), w.device)
      ensures old(w.Quiet()) && w.exclusive ==> o == Ok && w.disk == map[] && w.device == w.boot
    {
      var d;
      journal := w.disk;
      if w.exclusive { AllRestorable(w.local, w.disk, w.device, w.boot); }
      o, d := w.Read();
      if w.exclusive { Rebooted(old(w.device)); }
      if o != Ok { return; }
      var valid := Validate(journal);
      if !valid { return Failed; }
      o := RestoreAll();
      if o != Ok { return; }
      if w.exclusive { EmptyIsBaseline(w.local, w.device, w.boot); }
      ghost var before := w.device;
      o, d := w.Read();
      if w.exclusive { Rebooted(before); }
    }

    /* ----- Apply ----- */

    ghost predicate SettledAt(d: Device, k: Key, r: Record, key: Key, ip: Addr) {
      r.phase == Active && Check(d, k, r) && (r.ip == ip ==> k == key)
    }

    /** Every managed peer is active and as recorded, and none but `key` has the
        host; `mine` stands in for the record of `key`. */
    ghost predicate Settled(d: Device, key: Key, ip: Addr, mine: Option<Record>)
      reads this
    {
      forall k :: k in journal ==> SettledAt(d, k, if k == key && mine.Some? then mine.value else journal[k], key, ip)
    }

    method AllSettled(d: Device, key: Key, ip: Addr, mine: Option<Record>) returns (ok: bool)
      ensures ok ==> Settled(d, key, ip, mine)
      ensures UniqueOwners(d) && Settled(d, key, ip, mine) ==> ok
    {
      var todo := journal.Keys;
      while todo != {}
        invariant todo <= journal.Keys
        invariant forall k :: k in journal && k !in todo ==> SettledAt(d, k, if k == key && mine.Some? then mine.value else journal[k], key, ip)
        decreases todo
      {
        var k :| k in todo;
        var r := if k == key && mine.Some? then mine.value else journal[k];
        if r.phase != Active { return false; }
        var fits := CheckPeer(d, k, r);
        if !fits || (r.ip == ip && k != key) { return false; }
        todo := todo - {k};
      }
      ok := true;
    }

    predicate Acceptable(key: Key, ip: Addr, endpoint: Endpoint) {
      key != ZERO_KEY && key != w.local.public && w.local.usable(ip) && endpoint.port != 0 && w.local.usable(endpoint.addr)
    }

    /** Journal the plan to add a peer, with the stable route it will cover. */
    method PlanPeer(d: Device, key: Key, ip: Addr, psk: Key) returns (o: Outcome)
      requires key !in journal && key != ZERO_KEY && key != w.local.public && w.local.usable(ip)
      requires w.exclusive ==> Safe() && ZeroKeyHidesNothing(w.local, w.boot) && d == w.device
      requires Closed() && Settled(d, key, ip, None)
      modifies this, w`device, w`faults, w`disk, w`drops
      ensures ClosedAfter(o)
      ensures w.exclusive ==> SafeAfter(o) && (o != Crashed ==> w.device == old(w.device))
      ensures journal == old(journal) || (key in journal && journal[key].phase == Planning && journal == old(journal)[key := journal[key]])
      ensures key in journal ==> key !in d && PlannedFrom(d, ip, psk, journal[key])
      ensures key in journal ==> journal[key].owner !in journal && journal[key].owner != w.local.public
      ensures o == Ok ==> key in journal && w.disk == journal
      ensures old(w.Quiet()) ==> w.Quiet()
      ensures old(w.Quiet()) && w.exclusive && key !in d && HasStableRoute(ip) ==> o == Ok
      ensures forall i, p :: old(w.Quiet()) && NewRoute(d, old(journal), key, ip, i, p) ==>
                o == Ok && w.device == old(w.device) && journal == old(journal)[key := PlannedRecord(ip, i, p, psk)]
    {
      if key in d { return Failed; }
      var found := ControlOwner(d, ip, ZERO_KEY);
      SettledIsFree(d, key, ip);
      if w.exclusive { StableRouteFound(ip, found); }
      forall i, p | NewRoute(d, journal, key, ip, i, p) ensures found == Owned(i, p) {
        assert Candidate(d, ip, Some(ZERO_KEY), i, p);
        LongestIsUnique(d, ip, Some(ZERO_KEY), i, p, found.owner, found.prefix);
      }
      if !found.Owned? || found.owner == key || found.owner == w.local.public || found.owner in journal { return Failed; }
      var r := PlannedRecord(ip, found.owner, found.prefix, psk);
      if w.exclusive { AddKeepsRecoverable(w.local, journal, w.device, w.boot, key, r); }
      AddStaysValid(w.local, journal, key, r);
      journal := journal[key := r];
      o := Save();
    }

    /** The record names the owner of the longest route to the host in the device that
        was read. */
    ghost predicate PlannedFrom(d: Device, ip: Addr, psk: Key, r: Record) {
      Longest(d, ip, Some(ZERO_KEY), r.owner, r.prefix) && r == PlannedRecord(ip, r.owner, r.prefix, psk)
    }

    /** A peer that may be added, and the route found for its host. */
    ghost predicate NewRoute(d: Device, j: Records, key: Key, ip: Addr, i: Key, p: Prefix) {
      key !in d && key !in j && UniqueOwners(d) && Longest(d, ip, Some(ZERO_KEY), i, p) && i != key && i != w.local.public && i !in j
    }

    /** A peer whose plan, once journalled, fails its own check. */
    ghost predicate Refused(key: Key, ip: Addr, psk: Key, endpoint: Endpoint, i: Key, p: Prefix)
      reads this, w
    {
      Acceptable(key, ip, endpoint) && NewRoute(w.device, journal, key, ip, i, p) && !Check(w.device, key, PlannedRecord(ip, i, p, psk))
    }

    ghost predicate HasStableRoute(ip: Addr) {
      exists i, p :: Longest(w.boot, ip, Some(ZERO_KEY), i, p) && i != w.local.public
    }

    /** Nobody else manages the host, and the new peer owns no managed host. */
    lemma SettledIsFree(d: Device, key: Key, ip: Addr)
      requires Settled(d, key, ip, None) && key !in journal && key !in d
      ensures forall m :: m in journal ==> journal[m].ip != ip && journal[m].owner != key
    {
      forall m | m in journal ensures journal[m].ip != ip && journal[m].owner != key {
        assert SettledAt(d, m, journal[m], key, ip);
      }
    }

    lemma StableRouteFound(ip: Addr, found: OwnerResult)
      requires Safe() && ZeroKeyHidesNothing(w.local, w.boot) && w.local.usable(ip) && forall m :: m in journal ==> journal[m].ip != ip
      requires found.Owned? ==> Longest(w.device, ip, Some(ZERO_KEY), found.owner, found.prefix)
      requires found.Unowned? ==> forall k, p :: !Candidate(w.device, ip, Some(ZERO_KEY), k, p)
      requires found.Ambiguous? ==> !UniqueOwners(w.device)
      ensures found.Owned? && found.owner != w.local.public ==> Longest(w.boot, ip, None, found.owner, found.prefix)
      ensures HasStableRoute(ip) ==> found.Owned? && found.owner != w.local.public && found.owner !in journal
    {
      if found.Owned? {
        SameStableRoute(w.local, journal, w.device, w.boot, ip, found.owner, found.prefix);
      }
      if HasStableRoute(ip) {
        var i, p :| Longest(w.boot, ip, Some(ZERO_KEY), i, p) && i != w.local.public;
        SameStableRoute(w.local, journal, w.device, w.boot, ip, i, p);
        assert Candidate(w.device, ip, Some(ZERO_KEY), i, p);
        LongestIsUnique(w.device, ip, Some(ZERO_KEY), i, p, found.owner, found.prefix);
      }
    }

    /** The configuration request of an install. */
    method Request(key: Key, psk: Key, endpoint: Endpoint) returns (o: Outcome)
      requires key in journal && (journal[key].phase == Adding || journal[key].phase == Active)
      requires journal[key].hash == Sha256(psk)
      requires w.exclusive ==> Safe() && (if journal[key].phase == Adding then w.disk == journal && key !in w.device else key in w.device)
      requires Closed() && SeenOurs(key)
      modifies w`device, w`faults, w`writes
      ensures ClosedAfter(o)
      ensures w.exclusive ==> SafeAfter(o)
      ensures w.writes == old(w.writes) + [Write(key, journal, w.seen)]
      ensures w.exclusive && w.honest && o == Ok ==> key in w.device && w.device[key].endpoint == Some(endpoint)
      ensures old(w.Quiet()) ==> w.Quiet()
      ensures old(w.Quiet()) && w.exclusive ==>
                o == Ok && key in w.device && w.device[key].endpoint == Some(endpoint) && Check(w.device, key, journal[key].(phase := Active))
    {
      if journal[key].phase == Adding {
        o := RequestPeer(key, psk, endpoint);
      } else {
        o := RequestEndpoint(key, endpoint);
      }
      var r := journal[key];
      if w.exclusive && o != Crashed && key in w.device {
        RecoverableIsRestorable(w.local, journal, w.device, w.boot, key);
        assert ValidRecord(w.local, journal, key, r);
        FullPeerChecks(w.device, key, r);
      }
    }

    method RequestPeer(key: Key, psk: Key, endpoint: Endpoint) returns (o: Outcome)
      requires key in journal && journal[key].phase == Adding && journal[key].hash == Sha256(psk)
      requires w.exclusive ==> Safe() && w.disk == journal && key !in w.device
      requires Closed() && SeenOurs(key)
      modifies w`device, w`faults, w`writes
      ensures ClosedAfter(o)
      ensures w.exclusive ==> SafeAfter(o)
      ensures w.writes == old(w.writes) + [Write(key, journal, w.seen)]
      ensures w.exclusive && w.honest && o == Ok ==> key in w.device && w.device[key].endpoint == Some(endpoint)
      ensures old(w.Quiet()) ==> w.Quiet()
      ensures old(w.Quiet()) && w.exclusive ==> o == Ok && key in w.device && w.device[key].endpoint == Some(endpoint) && w.device[key].allowed != {}
    {
      ghost var before, done := w.device, 0;
      var config := PeerConfig(key, false, false, Some(psk), Some(endpoint), Some(HostPrefix(journal[key].ip)));
      o, done := Ask(config, key);
      if w.exclusive {
        Rebooted(before);
        AddPlan(before, config, done);
        AddPlan(before, config, |Plan(before, config)|);
        AddStateKeepsRecoverable(w.local, journal, before, w.boot, config, done);
      }
    }

    method RequestEndpoint(key: Key, endpoint: Endpoint) returns (o: Outcome)
      requires key in journal && journal[key].phase == Active
      requires w.exclusive ==> Safe() && key in w.device
      requires Closed() && SeenOurs(key)
      modifies w`device, w`faults, w`writes
      ensures ClosedAfter(o)
      ensures w.exclusive ==> SafeAfter(o)
      ensures w.writes == old(w.writes) + [Write(key, journal, w.seen)]
      ensures w.exclusive && o != Crashed ==> key in w.device && w.device[key].allowed == old(w.device)[key].allowed
      ensures w.exclusive && w.honest && o == Ok ==> w.device[key].endpoint == Some(endpoint)
      ensures old(w.Quiet()) ==> w.Quiet()
      ensures old(w.Quiet()) && w.exclusive ==> o == Ok && w.device[key].endpoint == Some(endpoint)
    {
      ghost var before, done := w.device, 0;
      var config := PeerConfig(key, false, true, None, Some(endpoint), None);
      o, done := Ask(config, key);
      if w.exclusive {
        assert Fits(before, key, journal[key], w.boot);
        Rebooted(before);
        EndpointPlan(before, config, done);
        EndpointPlan(before, config, |Plan(before, config)|);
        EndpointKeepsSafe(w.local, journal, before, w.boot, key, endpoint);
        EndpointKeepsSafe(w.local, w.disk, before, w.boot, key, endpoint);
      }
    }

    /** Verify a request and make the record active. */
    method Confirm(key: Key) returns (o: Outcome)
      requires key in journal && (journal[key].phase == Adding || journal[key].phase == Active)
      requires w.exclusive ==> Safe()
      requires Closed()
      modifies this, w`device, w`faults, w`seen, w`saw, w`disk, w`drops
      ensures ClosedAfter(o)
      ensures w.exclusive ==> SafeAfter(o)
      ensures journal == old(journal) || journal == old(journal)[key := old(journal)[key].(phase := Active)]
      ensures w.writes == old(w.writes)
      ensures journal != old(journal) || o == Ok ==> w.saw && Check(w.seen, key, old(journal)[key].(phase := Active))
      ensures o == Ok ==> w.disk == journal && journal == old(journal)[key := old(journal)[key].(phase := Active)]
      ensures w.exclusive && o == Ok ==> w.device == old(w.device) && Check(w.device, key, journal[key])
      ensures old(w.Quiet()) ==> w.Quiet()
      ensures old(w.Quiet()) && w.exclusive && Check(old(w.device), key, old(journal)[key].(phase := Active)) ==> o == Ok
    {
      var d;
      var r := journal[key].(phase := Active);
      o, d := Inspect(key, r);
      if o != Ok { return; }
      if w.exclusive {
        assert ValidRecord(w.local, journal, key, journal[key]);
        EditKeepsRecoverable(w.local, journal, w.device, w.boot, key, r);
      }
      assert ValidRecord(w.local, journal, key, journal[key]);
      o := Store(key, r);
    }

    /** Turn a plan into an attempt. */
    method BeginAdding(key: Key) returns (o: Outcome)
      requires key in journal && journal[key].phase == Planning
      requires w.exclusive ==> Safe()
      requires Closed()
      modifies this, w`device, w`faults, w`disk, w`drops
      ensures ClosedAfter(o)
      ensures w.exclusive ==> SafeAfter(o) && (o != Crashed ==> w.device == old(w.device))
      ensures w.writes == old(w.writes)
      ensures o == Ok ==> w.disk == journal && journal == old(journal)[key := old(journal)[key].(phase := Adding)]
      ensures o != Ok ==> journal == old(journal)
      ensures old(w.Quiet()) ==> w.Quiet() && o == Ok
    {
      var r := journal[key];
      if w.exclusive {
        assert ValidRecord(w.local, journal, key, r) && Fits(w.device, key, r, w.boot);
        EditKeepsRecoverable(w.local, journal, w.device, w.boot, key, r.(phase := Adding));
      }
      assert ValidRecord(w.local, journal, key, r);
      o := StoreOrNot(key, r.(phase := Adding));
    }

    method Install(key: Key, psk: Key, endpoint: Endpoint) returns (o: Outcome)
      requires key in journal && (journal[key].phase == Planning || journal[key].phase == Active)
      requires journal[key].hash == Sha256(psk)
      requires w.exclusive ==> Safe()
      requires Closed()
      modifies this, w`device, w`faults, w`seen, w`saw, w`disk, w`drops, w`writes
      ensures ClosedAfter(o)
      ensures w.exclusive ==> SafeAfter(o)
      ensures SameExcept(journal, old(journal), key)
      ensures o == Ok ==> w.disk == journal && key in journal && journal[key] == old(journal)[key].(phase := Active)
      ensures w.exclusive && o == Ok ==> Check(w.device, key, journal[key])
      ensures NamesOwn(old(w.writes), w.writes, key)
      ensures o == Failed && w.writes != old(w.writes) && key in journal && journal[key] != Undoing(journal[key]) ==>
                !w.saw || !UniqueOwners(w.seen) || !Restorable(w.seen, key, journal[key])
      ensures w.exclusive && w.honest && o == Ok ==> key in w.device && w.device[key].endpoint == Some(endpoint)
      ensures old(w.Quiet()) ==> w.Quiet()
      ensures old(w.Quiet()) && w.exclusive && old(journal[key].phase == Active ==> key in w.device) ==> o == Ok && key in w.device && w.device[key].endpoint == Some(endpoint)
      ensures old(w.Quiet()) && UniqueOwners(old(w.device)) && !Check(old(w.device), key, old(journal)[key]) ==>
                o == Failed && w.device == old(w.device) && w.disk == old(w.disk) && journal == old(journal)
    {
      var d;
      if w.exclusive { RecoverableIsRestorable(w.local, journal, w.device, w.boot, key); }
      o, d := Inspect(key, journal[key]);
      if o != Ok { return; }
      CheckedIsOurs(d, key, journal[key], journal[key]);
      if journal[key].phase == Planning {
        o := BeginAdding(key);
        if o != Ok { return; }
      }
      o := Attempt(key, psk, endpoint);
    }

    /** Request and confirm; an error leads to a restore. */
    method Attempt(key: Key, psk: Key, endpoint: Endpoint) returns (o: Outcome)
      requires key in journal && (journal[key].phase == Adding || journal[key].phase == Active) && journal[key].hash == Sha256(psk)
      requires w.exclusive ==> Safe() && (if journal[key].phase == Adding then w.disk == journal && key !in w.device else key in w.device)
      requires Closed() && SeenOurs(key)
      modifies this, w`device, w`faults, w`seen, w`saw, w`disk, w`drops, w`writes
      ensures ClosedAfter(o)
      ensures w.exclusive ==> SafeAfter(o)
      ensures SameExcept(journal, old(journal), key)
      ensures o == Ok ==> w.disk == journal && journal == old(journal)[key := old(journal)[key].(phase := Active)]
      ensures w.exclusive && o == Ok ==> Check(w.device, key, journal[key])
      ensures NamesOwn(old(w.writes), w.writes, key)
      ensures o == Failed && key in journal && journal[key] != Undoing(journal[key]) ==>
                !w.saw || !UniqueOwners(w.seen) || !Restorable(w.seen, key, journal[key])
      ensures w.exclusive && w.honest && o == Ok ==> key in w.device && w.device[key].endpoint == Some(endpoint)
      ensures old(w.Quiet()) ==> w.Quiet()
      ensures old(w.Quiet()) && w.exclusive ==> o == Ok && key in w.device && w.device[key].endpoint == Some(endpoint)
    {
      o := RequestAndConfirm(key, psk, endpoint);
      if o == Failed {
        var undo := Restore(key);
        if undo == Crashed { o := Crashed; }
      }
    }

    method RequestAndConfirm(key: Key, psk: Key, endpoint: Endpoint) returns (o: Outcome)
      requires key in journal && (journal[key].phase == Adding || journal[key].phase == Active) && journal[key].hash == Sha256(psk)
      requires w.exclusive ==> Safe() && (if journal[key].phase == Adding then w.disk == journal && key !in w.device else key in w.device)
      requires Closed() && SeenOurs(key)
      modifies this, w`device, w`faults, w`seen, w`saw, w`disk, w`drops, w`writes
      ensures ClosedAfter(o)
      ensures w.exclusive ==> SafeAfter(o)
      ensures journal == old(journal) || journal == old(journal)[key := old(journal)[key].(phase := Active)]
      ensures o == Ok ==> w.disk == journal && journal == old(journal)[key := old(journal)[key].(phase := Active)]
      ensures w.exclusive && o == Ok ==> Check(w.device, key, journal[key])
      ensures NamesOwn(old(w.writes), w.writes, key)
      ensures w.exclusive && w.honest && o == Ok ==> key in w.device && w.device[key].endpoint == Some(endpoint)
      ensures old(w.Quiet()) ==> w.Quiet()
      ensures old(w.Quiet()) && w.exclusive ==> o == Ok && key in w.device && w.device[key].endpoint == Some(endpoint)
    {
      o := Request(key, psk, endpoint);
      if o == Ok { o := Confirm(key); }
    }

    ghost predicate Eligible(key: Key, ip: Addr, psk: Key, endpoint: Endpoint)
      reads this, w
    {
      && Acceptable(key, ip, endpoint)
      && (forall k :: k in journal ==> journal[k].phase == Active && k in w.device)
      && if key in journal then journal[key].ip == ip && journal[key].hash == Sha256(psk)
         else key !in w.device && (forall k :: k in journal ==> journal[k].ip != ip) && HasStableRoute(ip)
    }

    /** A new direct peer, or another endpoint for a managed one. */
    method Apply(key: Key, ip: Addr, psk: Key, endpoint: Endpoint) returns (o: Outcome)
      requires w.exclusive ==> Safe() && ZeroKeyHidesNothing(w.local, w.boot)
      requires Closed()
      modifies this, w`device, w`faults, w`seen, w`saw, w`disk, w`drops, w`writes
      ensures ClosedAfter(o)
      ensures w.exclusive ==> SafeAfter(o)
      ensures SameExcept(journal, old(journal), key)
      ensures NamesOwn(old(w.writes), w.writes, key)
      ensures key in old(journal) && (old(journal)[key].ip != ip || old(journal)[key].hash != Sha256(psk)) ==>
                o != Ok && journal == old(journal) && w.disk == old(w.disk) && w.writes == old(w.writes) && (w.exclusive && o != Crashed ==> w.device == old(w.device))
      ensures o == Ok ==> key in journal && journal[key].ip == ip && journal[key].hash == Sha256(psk)
      ensures w.exclusive && w.honest && o == Ok ==> key in w.device && w.device[key].endpoint == Some(endpoint)
      ensures o == Ok ==> w.disk == journal && key in journal && journal[key].phase == Active
      ensures w.exclusive && o == Ok ==> Direct(w.device, key, ip, psk)
      ensures old(w.Quiet()) && w.exclusive && old(Eligible(key, ip, psk, endpoint)) ==> o == Ok && w.device[key].endpoint == Some(endpoint)
      ensures forall i, p :: old(w.Quiet() && journal == map[] && Refused(key, ip, psk, endpoint, i, p)) ==>
                o == Failed && w.Quiet() && w.device == old(w.device) && w.disk == map[key := PlannedRecord(ip, i, p, psk)]
    {
      var d;
      if !Acceptable(key, ip, endpoint) { return Failed; }
      if w.exclusive && Eligible(key, ip, psk, endpoint) { EligibleIsSettled(key, ip, psk, endpoint); }
      o, d := LookAround(key, ip);
      if o != Ok { return; }
      if key in journal {
        if journal[key].ip != ip || journal[key].hash != Sha256(psk) { return Failed; }
      } else {
        o := PlanPeer(d, key, ip, psk);
        if o != Ok { return; }
      }
      o := Install(key, psk, endpoint);
      if w.exclusive && o == Ok { ActiveIsDirect(w.local, journal, w.device, w.boot, key); }
    }

    /** A fresh read on which every managed peer is active and as recorded. */
    method LookAround(key: Key, ip: Addr) returns (o: Outcome, d: Device)
      requires w.exclusive ==> Safe()
      requires Closed()
      modifies w`device, w`faults, w`seen, w`saw
      ensures ClosedAfter(o)
      ensures w.exclusive ==> SafeAfter(o) && (o != Crashed ==> w.device == old(w.device))
      ensures o == Ok ==> d == w.device == w.seen && Settled(d, key, ip, None)
      ensures old(w.Quiet()) ==> w.Quiet() && w.device == old(w.device)
      ensures old(w.Quiet()) && UniqueOwners(w.device) && old(Settled(w.device, key, ip, None)) ==> o == Ok
    {
      o, d := w.Read();
      if w.exclusive { Rebooted(old(w.device)); }
      if o == Ok {
        var settled := AllSettled(d, key, ip, None);
        if !settled { o := Failed; }
      }
    }

    lemma EligibleIsSettled(key: Key, ip: Addr, psk: Key, endpoint: Endpoint)
      requires Safe() && Eligible(key, ip, psk, endpoint)
      ensures Settled(w.device, key, ip, None)
    {
      forall k | k in journal ensures SettledAt(w.device, k, journal[k], key, ip) {
        RecoverableIsRestorable(w.local, journal, w.device, w.boot, k);
      }
    }

    /* ----- Rekey ----- */

    /** A fresh read on which every managed peer is active and as recorded. */
    method CheckActive(key: Key, mine: Record) returns (o: Outcome)
      requires key in journal && (w.exclusive ==> Safe())
      requires Closed()
      modifies w`device, w`faults, w`seen, w`saw
      ensures ClosedAfter(o)
      ensures w.exclusive ==> SafeAfter(o) && (o != Crashed ==> w.device == old(w.device))
      ensures o == Ok ==> Check(w.seen, key, mine)
      ensures w.exclusive && o == Ok ==> Check(w.device, key, mine)
      ensures w.disk == old(w.disk) && w.writes == old(w.writes)
      ensures old(w.Quiet()) ==> w.Quiet() && w.device == old(w.device)
      ensures old(w.Quiet()) && w.exclusive && old(Settled(w.device, key, mine.ip, Some(mine))) ==> o == Ok
    {
      var d;
      o, d := w.Read();
      if w.exclusive { Rebooted(old(w.device)); }
      if o != Ok { return; }
      var settled := AllSettled(d, key, mine.ip, Some(mine));
      if !settled { o := Failed; }
    }

    ghost predicate Rekeyable(key: Key, oldPsk: Key, newPsk: Key)
      reads this, w
    {
      && newPsk != ZERO_KEY && key in journal && journal[key].phase == Active && journal[key].hash == Sha256(oldPsk)
      && key in w.device && OthersActive(journal, w.device, key)
    }

    lemma OthersSettled(key: Key, mine: Record)
      requires Safe() && OthersActive(journal, w.device, key) && key in journal && SameBase(journal[key], mine)
      requires mine.phase == Active && Check(w.device, key, mine)
      ensures Settled(w.device, key, mine.ip, Some(mine))
    {
      forall k | k in journal && k != key ensures SettledAt(w.device, k, journal[k], key, mine.ip) {
        RecoverableIsRestorable(w.local, journal, w.device, w.boot, k);
      }
    }

    lemma NewKeySettled(key: Key, mine: Record, psk: Key)
      requires Safe() && OthersActive(journal, w.device, key) && key in journal && key in w.device && w.device[key].psk == psk
      requires mine.phase == Active && mine.next.None? && journal[key] == mine.(phase := Rekeying, next := Some(Sha256(psk)))
      ensures Settled(w.device, key, mine.ip, Some(mine.(hash := Sha256(psk))))
    {
      RecoverableIsRestorable(w.local, journal, w.device, w.boot, key);
      OthersSettled(key, mine.(hash := Sha256(psk)));
    }

    method BeginRekey(key: Key, newPsk: Key) returns (o: Outcome)
      requires key in journal && journal[key].phase == Active && newPsk != ZERO_KEY
      requires w.exclusive ==> Safe()
      requires Closed()
      modifies this, w`device, w`faults, w`disk, w`drops
      ensures ClosedAfter(o)
      ensures w.exclusive ==> SafeAfter(o) && (o != Crashed ==> w.device == old(w.device))
      ensures journal == old(journal)[key := old(journal)[key].(phase := Rekeying, next := Some(Sha256(newPsk)))]
      ensures o == Ok ==> w.disk == journal
      ensures old(w.Quiet()) ==> w.Quiet() && o == Ok
    {
      var r := journal[key].(phase := Rekeying, next := Some(Sha256(newPsk)));
      if w.exclusive {
        assert ValidRecord(w.local, journal, key, journal[key]) && Fits(w.device, key, journal[key], w.boot);
        EditKeepsRecoverable(w.local, journal, w.device, w.boot, key, r);
      }
      assert ValidRecord(w.local, journal, key, journal[key]);
      o := Store(key, r);
    }

    method SetKey(key: Key, psk: Key) returns (o: Outcome)
      requires key in journal && journal[key].phase == Rekeying && journal[key].next == Some(Sha256(psk))
      requires w.exclusive ==> Safe() && w.disk == journal && key in w.device
      requires Closed() && SeenOurs(key)
      modifies w`device, w`faults, w`writes
      ensures ClosedAfter(o)
      ensures w.exclusive ==> SafeAfter(o)
      ensures w.exclusive && o != Crashed ==>
                key in w.device && w.device.Keys == old(w.device).Keys && w.device[key].endpoint == old(w.device)[key].endpoint
      ensures old(w.Quiet()) ==> w.Quiet() && o == Ok
      ensures old(w.Quiet()) && w.exclusive ==> w.device[key].psk == psk
      ensures w.writes == old(w.writes) + [Write(key, journal, w.seen)]
    {
      ghost var before, done := w.device, 0;
      var config := PeerConfig(key, false, true, Some(psk), None, None);
      o, done := Ask(config, key);
      if w.exclusive {
        Rebooted(before);
        PskPlan(before, config, done);
        PskPlan(before, config, |Plan(before, config)|);
        assert Fits(before, key, journal[key], w.boot);
        SettingKeepsRecoverable(w.local, journal, before, w.boot, key, before[key].(psk := psk));
      }
    }

    method FinishRekey(key: Key, next: Record) returns (o: Outcome)
      requires key in journal && journal[key].phase == Rekeying
      requires next.ip == journal[key].ip && next.owner == journal[key].owner && next.prefix == journal[key].prefix
      requires w.exclusive ==> Safe() && Check(w.device, key, next)
      requires Closed()
      requires next.phase == Active && next.next.None? && next.hash != ZeroDigest
      modifies this, w`device, w`faults, w`disk, w`drops
      ensures ClosedAfter(o)
      ensures w.exclusive ==> SafeAfter(o) && (o != Crashed ==> w.device == old(w.device))
      ensures o == Ok ==> w.disk == journal == old(journal)[key := next]
      ensures o != Ok ==> journal == old(journal)
      ensures old(w.Quiet()) ==> o == Ok
    {
      var pending := journal[key];
      if w.exclusive {
        assert ValidRecord(w.local, journal, key, pending);
        EditKeepsRecoverable(w.local, journal, w.device, w.boot, key, next);
      }
      o := StoreOrNot(key, next);
    }

    /** The part of a rekey after its intent is on disk. */
    method ReplaceKey(key: Key, mine: Record, newPsk: Key) returns (o: Outcome)
      requires key in journal && mine.phase == Active && journal[key] == mine.(phase := Rekeying, next := Some(Sha256(newPsk)))
      requires w.exclusive ==> Safe() && w.disk == journal && Check(w.device, key, mine)
      requires Closed() && mine.next.None?
      modifies this, w`device, w`faults, w`seen, w`saw, w`disk, w`drops, w`writes
      ensures ClosedAfter(o)
      ensures w.exclusive ==> SafeAfter(o)
      ensures journal == old(journal) || journal == old(journal)[key := mine.(hash := Sha256(newPsk))]
      ensures NamesOwn(old(w.writes), w.writes, key)
      ensures o == Ok ==> w.disk == journal == old(journal)[key := mine.(hash := Sha256(newPsk))]
      ensures w.exclusive && o == Ok ==> Direct(w.device, key, mine.ip, newPsk) && SameEndpoint(old(w.device), w.device, key)
      ensures old(w.Quiet()) && w.exclusive && old(OthersActive(journal, w.device, key)) && key in old(w.device) ==> o == Ok
    {
      if w.exclusive && OthersActive(journal, w.device, key) { OthersSettled(key, mine); }
      o := CheckActive(key, mine);
      if o != Ok { return; }
      CheckedIsOurs(w.seen, key, mine, journal[key]);
      o := SetKey(key, newPsk);
      if o != Ok { return; }
      if old(w.Quiet()) && w.exclusive && old(OthersActive(journal, w.device, key)) { NewKeySettled(key, mine, newPsk); }
      var next := mine.(hash := Sha256(newPsk));
      o := CheckActive(key, next);
      if o != Ok { return; }
      o := FinishRekey(key, next);
      if w.exclusive && o == Ok { ActiveIsDirect(w.local, journal, w.device, w.boot, key); }
    }

    /** Replace the preshared key of an active peer in place. */
    method Rekey(key: Key, oldPsk: Key, newPsk: Key) returns (o: Outcome)
      requires w.exclusive ==> Safe()
      requires Closed()
      modifies this, w`device, w`faults, w`seen, w`saw, w`disk, w`drops, w`writes
      ensures ClosedAfter(o)
      ensures w.exclusive ==> SafeAfter(o)
      ensures SameExcept(journal, old(journal), key) && (key in journal <==> key in old(journal))
      ensures NamesOwn(old(w.writes), w.writes, key)
      ensures o == Ok ==> && key in old(journal) && old(journal)[key].hash == Sha256(oldPsk)
                          && w.disk == journal && journal[key] == old(journal)[key].(hash := Sha256(newPsk))
      ensures w.exclusive && o == Ok ==> Direct(w.device, key, journal[key].ip, newPsk) && SameEndpoint(old(w.device), w.device, key)
      ensures key !in old(journal) || old(journal)[key].hash != Sha256(oldPsk) ==>
                o == Failed && journal == old(journal) && w.disk == old(w.disk) && w.device == old(w.device) && w.writes == old(w.writes)
      ensures old(w.Quiet()) && w.exclusive && old(Rekeyable(key, oldPsk, newPsk)) ==> o == Ok
    {
      if key !in journal || journal[key].phase != Active { return Failed; }
      if newPsk == ZERO_KEY || journal[key].hash != Sha256(oldPsk) { return Failed; }
      o := RekeyActive(key, newPsk);
    }

    method RekeyActive(key: Key, newPsk: Key) returns (o: Outcome)
      requires key in journal && journal[key].phase == Active && newPsk != ZERO_KEY
      requires w.exclusive ==> Safe()
      requires Closed()
      modifies this, w`device, w`faults, w`seen, w`saw, w`disk, w`drops, w`writes
      ensures ClosedAfter(o)
      ensures w.exclusive ==> SafeAfter(o)
      ensures SameExcept(journal, old(journal), key) && key in journal
      ensures NamesOwn(old(w.writes), w.writes, key)
      ensures o == Ok ==> w.disk == journal && journal[key] == old(journal)[key].(hash := Sha256(newPsk))
      ensures w.exclusive && o == Ok ==> Direct(w.device, key, journal[key].ip, newPsk) && SameEndpoint(old(w.device), w.device, key)
      ensures old(w.Quiet()) && w.exclusive && key in old(w.device) && old(OthersActive(journal, w.device, key)) ==> o == Ok
    {
      var mine := journal[key];
      assert ValidRecord(w.local, journal, key, mine);
      ghost var easy := w.Quiet() && w.exclusive && key in w.device && OthersActive(journal, w.device, key);
      if easy {
        RecoverableIsRestorable(w.local, journal, w.device, w.boot, key);
        OthersSettled(key, mine);
      }
      o := CheckActive(key, mine);
      if o != Ok { return; }
      o := BeginRekey(key, newPsk);
      if o != Ok { return; }
      if easy { OthersStayActive(old(journal), w.device, key, journal[key]); }
      o := ReplaceKey(key, mine, newPsk);
    }
  }

  /** Every other managed peer is active and present. */
  ghost predicate OthersActive(j: Records, d: Device, key: Key) {
    forall k :: k in j && k != key ==> j[k].phase == Active && k in d
  }

  lemma OthersStayActive(j: Records, d: Device, key: Key, r: Record)
    requires OthersActive(j, d, key)
    ensures OthersActive(j[key := r], d, key)
  {
  }

  /* ----- journals that a startup accepts ----- */

  lemma EditStaysValid(l: Local, j: Records, k: Key, r: Record)
    requires ValidRecords(l, j) && k in j && SameBase(j[k], r) && Shaped(r)
    ensures ValidRecords(l, j[k := r])
  {
    var j' := j[k := r];
    forall m | m in j' ensures ValidRecord(l, j', m, j'[m]) {
      assert ValidRecord(l, j, m, j[m]);
    }
  }

  lemma SettlesByBase(seen: Device, key: Key, r: Record, q: Record)
    requires Settles(seen, key, r) && SameBase(r, q)
    ensures Settles(seen, key, q)
  {
  }

  lemma AddStaysValid(l: Local, j: Records, k: Key, r: Record)
    requires ValidRecords(l, j) && k !in j && ValidRecord(l, j, k, r)
    requires forall m :: m in j ==> j[m].ip != r.ip && j[m].owner != k
    ensures ValidRecords(l, j[k := r])
  {
    var j' := j[k := r];
    forall m | m in j' ensures ValidRecord(l, j', m, j'[m]) {
      assert m != k ==> ValidRecord(l, j, m, j[m]);
    }
  }

  function PlannedRecord(ip: Addr, owner: Key, prefix: Prefix, psk: Key): Record {
    Record(ip, owner, prefix, Sha256(psk), Planning, None)
  }

  ghost predicate SameExcept(now: Records, was: Records, key: Key) {
    forall k :: k != key ==> (k in now <==> k in was) && (k in now ==> now[k] == was[k])
  }

  /** Traffic for `ip` goes to the direct peer, under the given key. */
  ghost predicate Direct(d: Device, key: Key, ip: Addr, psk: Key) {
    key in d && d[key].psk == psk && d[key].allowed == {HostPrefix(ip)} && Longest(d, ip, None, key, HostPrefix(ip))
  }

  ghost predicate SameEndpoint(was: Device, now: Device, key: Key) {
    key in was && key in now && now[key].endpoint == was[key].endpoint
  }

  lemma ActiveIsDirect(l: Local, j: Records, d: Device, b: Device, k: Key)
    requires Recoverable(l, j, d, b) && k in j && j[k].phase == Active && Check(d, k, j[k]) && j[k].hash.Sha256?
    ensures Direct(d, k, j[k].ip, j[k].hash.preimage)
  {
    assert ValidRecord(l, j, k, j[k]);
  }

  lemma AllRestorable(l: Local, j: Records, d: Device, b: Device)
    requires Recoverable(l, j, d, b)
    ensures Conflicting(d, j) == map[]
  {
    forall k | k in j ensures Restorable(d, k, j[k]) {
      RecoverableIsRestorable(l, j, d, b, k);
    }
  }

  /** The records a quiet recovery must keep, and those it completes. */
  ghost function Conflicting(d: Device, j: Records): Records {
    map k | k in j && !Restorable(d, k, j[k]) :: j[k]
  }

  ghost function Recovered(d: Device, j: Records): Records {
    map k | k in j && Restorable(d, k, j[k]) :: j[k]
  }

  ghost function RecoveredSoFar(d: Device, j: Records, todo: set<Key>): Records {
    map k | k in j && k !in todo && Restorable(d, k, j[k]) :: j[k]
  }

  ghost function KeptSoFar(d: Device, j: Records, todo: set<Key>): Records {
    map k | k in j && (k in todo || !Restorable(d, k, j[k])) :: j[k]
  }

  /** Where a quiet recovery of `j` from device `d` stands. */
  ghost predicate Progress(l: Local, j: Records, d: Device, todo: set<Key>, mem: Records, dev: Device) {
    && ValidRecords(l, j) && mem == KeptSoFar(d, j, todo) && UniqueOwners(dev)
    && Overlays(d, RecoveredSoFar(d, j, todo), dev)
    && forall k :: k in mem ==> SameView(d, dev, k, j[k])
  }

  ghost predicate SameView(d: Device, dev: Device, k: Key, r: Record) {
    && (k in dev <==> k in d)
    && (k in d ==> dev[k] == d[k])
    && (Restorable(dev, k, r) <==> Restorable(d, k, r))
  }

  lemma NothingDone(l: Local, j: Records, d: Device)
    requires ValidRecords(l, j) && UniqueOwners(d)
    ensures Progress(l, j, d, j.Keys, j, d)
  {
    assert KeptSoFar(d, j, j.Keys) == j;
    var none := RecoveredSoFar(d, j, j.Keys);
    assert none == map[];
    assert forall k :: k in d ==> SamePeer(d, none, d, k);
  }

  lemma ProgressStep(l: Local, j: Records, d: Device, todo: set<Key>, mem: Records, dev: Device, key: Key)
    requires Progress(l, j, d, todo, mem, dev) && key in todo && todo <= j.Keys
    ensures key in mem && mem[key] == j[key] && ValidRecords(l, mem)
    ensures Restorable(dev, key, mem[key]) <==> key !in Conflicting(d, j)
    ensures Restorable(dev, key, mem[key]) ==> Progress(l, j, d, todo - {key}, mem - {key}, Undone(dev, key, mem[key]))
    ensures !Restorable(dev, key, mem[key]) ==> Progress(l, j, d, todo - {key}, mem, dev)
  {
    SubJournalValid(l, j, mem);
    assert SameView(d, dev, key, j[key]);
    SoFarStep(d, j, todo, key);
    if Restorable(dev, key, mem[key]) {
      RestoredStep(l, j, d, todo, mem, dev, key);
    }
  }

  lemma SoFarStep(d: Device, j: Records, todo: set<Key>, key: Key)
    requires key in todo && key in j
    ensures Restorable(d, key, j[key]) ==>
              && KeptSoFar(d, j, todo - {key}) == KeptSoFar(d, j, todo) - {key}
              && RecoveredSoFar(d, j, todo - {key}) == RecoveredSoFar(d, j, todo)[key := j[key]]
    ensures !Restorable(d, key, j[key]) ==>
              && KeptSoFar(d, j, todo - {key}) == KeptSoFar(d, j, todo)
              && RecoveredSoFar(d, j, todo - {key}) == RecoveredSoFar(d, j, todo)
  {
  }

  lemma RestoredStep(l: Local, j: Records, d: Device, todo: set<Key>, mem: Records, dev: Device, key: Key)
    requires Progress(l, j, d, todo, mem, dev) && key in todo && key in mem && mem[key] == j[key] && ValidRecords(l, mem)
    requires Restorable(dev, key, mem[key])
    requires KeptSoFar(d, j, todo - {key}) == mem - {key}
    requires RecoveredSoFar(d, j, todo - {key}) == RecoveredSoFar(d, j, todo)[key := j[key]]
    ensures Progress(l, j, d, todo - {key}, mem - {key}, Undone(dev, key, mem[key]))
  {
    assert SameView(d, dev, key, j[key]);
    UndoneUncovers(l, mem, d, RecoveredSoFar(d, j, todo), dev, key);
    UndoPassesChecks(l, mem, dev, key);
    forall k | k in mem - {key} ensures SameView(d, Undone(dev, key, mem[key]), k, j[k]) {
      assert SameView(d, dev, k, j[k]);
      UndoneLeavesOthers(l, mem, dev, key, k);
    }
  }

  lemma KeptAtLast(d: Device, j: Records)
    ensures KeptSoFar(d, j, {}) == Conflicting(d, j)
  {
    assert KeptSoFar(d, j, {}).Keys == Conflicting(d, j).Keys;
  }

  lemma RecoveredAtLast(d: Device, j: Records)
    ensures RecoveredSoFar(d, j, {}) == Recovered(d, j)
  {
    assert RecoveredSoFar(d, j, {}).Keys == Recovered(d, j).Keys;
  }

  lemma ProgressDone(l: Local, j: Records, d: Device, mem: Records, dev: Device)
    requires Progress(l, j, d, {}, mem, dev)
    ensures mem == Conflicting(d, j) && Overlays(d, Recovered(d, j), dev)
  {
    KeptAtLast(d, j);
    RecoveredAtLast(d, j);
  }

  lemma SubJournalValid(l: Local, j: Records, sub: Records)
    requires ValidRecords(l, j) && sub.Keys <= j.Keys && forall k :: k in sub ==> sub[k] == j[k]
    ensures ValidRecords(l, sub)
  {
    forall m | m in sub ensures ValidRecord(l, sub, m, sub[m]) {
      assert ValidRecord(l, j, m, j[m]);
    }
  }

  /* ----- facts the steps use ----- */

  lemma OneStep(d: Device, s: Step, done: nat)
    requires done <= 1
    ensures PerformAll(d, [s]) == Perform(d, s)
    ensures PerformAll(d, [s][..done]) == if done == 0 then d else Perform(d, s)
  {
    assert [s][..0] == [] && [s][..1] == [s];
    assert PerformAll(d, []) == d;
  }

  lemma EndpointPlan(d: Device, c: PeerConfig, done: nat)
    requires c.key in d && c.updateOnly && !c.remove && c.psk.None? && c.endpoint.Some? && c.allowed.None?
    requires done <= |Plan(d, c)|
    ensures PerformAll(d, Plan(d, c)) == d[c.key := d[c.key].(endpoint := c.endpoint)]
    ensures PerformAll(d, Plan(d, c)[..done]) == d || PerformAll(d, Plan(d, c)[..done]) == d[c.key := d[c.key].(endpoint := c.endpoint)]
  {
    assert Plan(d, c) == [SetEndpoint(c.key, c.endpoint.value)];
    OneStep(d, SetEndpoint(c.key, c.endpoint.value), done);
  }

  lemma PskPlan(d: Device, c: PeerConfig, done: nat)
    requires c.key in d && c.updateOnly && !c.remove && c.psk.Some? && c.endpoint.None? && c.allowed.None?
    requires done <= |Plan(d, c)|
    ensures PerformAll(d, Plan(d, c)) == d[c.key := d[c.key].(psk := c.psk.value)]
    ensures PerformAll(d, Plan(d, c)[..done]) == d || PerformAll(d, Plan(d, c)[..done]) == d[c.key := d[c.key].(psk := c.psk.value)]
  {
    assert Plan(d, c) == [SetPsk(c.key, c.psk.value)];
    OneStep(d, SetPsk(c.key, c.psk.value), done);
  }

  /** Whatever the phase of its record, a managed peer may change its endpoint. */
  lemma EndpointKeepsSafe(l: Local, j: Records, d: Device, b: Device, k: Key, e: Endpoint)
    requires Recoverable(l, j, d, b) && k in d && k !in b
    ensures Recoverable(l, j, d[k := d[k].(endpoint := Some(e))], b)
  {
    assert Fits(d, k, j[k], b);
    SettingKeepsRecoverable(l, j, d, b, k, d[k].(endpoint := Some(e)));
  }

  /** A complete peer passes the check for an active record. */
  lemma FullPeerChecks(d: Device, k: Key, r: Record)
    requires k in d && Check(d, k, r) && (r.phase == Adding || r.phase == Active) && r.next.None?
    ensures d[k].allowed != {} ==> Check(d, k, r.(phase := Active))
  {
  }

  /** Plans with at most one update. */
  lemma GiveBackPlan(d: Device, c: PeerConfig, done: nat)
    requires c.key in d && c.updateOnly && !c.remove && c.psk.None? && c.endpoint.None? && c.allowed.Some?
    requires done <= |Plan(d, c)|
    ensures PerformAll(d, Plan(d, c)) == Transfer(d, c.key, c.allowed.value)
    ensures PerformAll(d, Plan(d, c)[..done]) == d || PerformAll(d, Plan(d, c)[..done]) == Transfer(d, c.key, c.allowed.value)
  {
    assert Plan(d, c) == [Allow(c.key, c.allowed.value)];
    OneStep(d, Allow(c.key, c.allowed.value), done);
  }

  lemma QuietRestore(l: Local, j: Records, d: Device, k: Key)
    requires k in j
    ensures ValidRecords(l, j) && UniqueOwners(d) && Restorable(d, k, j[k]) ==>
              ValidRecords(l, j[k := Undoing(j[k])]) && Check(d, k, Undoing(j[k])) && Undone(d, k, Undoing(j[k])) == Undone(d, k, j[k])
  {
    if ValidRecords(l, j) && UniqueOwners(d) && Restorable(d, k, j[k]) { UndoingStaysValid(l, j, d, k); }
  }

  /** A record being undone is undone in the same way. */
  lemma UndoingTwice(j: Records, k: Key)
    requires k in j
    ensures Undoing(Undoing(j[k])) == Undoing(j[k]) && j[k := Undoing(j[k])] - {k} == j - {k}
    ensures forall seen :: Settles(seen, k, Undoing(j[k])) == Settles(seen, k, j[k])
  {
  }

  lemma UndoingStaysValid(l: Local, j: Records, d: Device, k: Key)
    requires ValidRecords(l, j) && k in j && UniqueOwners(d) && Restorable(d, k, j[k])
    ensures ValidRecords(l, j[k := Undoing(j[k])]) && Check(d, k, Undoing(j[k]))
    ensures Undone(d, k, Undoing(j[k])) == Undone(d, k, j[k])
  {
    var j' := j[k := Undoing(j[k])];
    forall m | m in j' ensures ValidRecord(l, j', m, j'[m]) {
      assert ValidRecord(l, j, m, j[m]);
    }
    UndoPassesChecks(l, j, d, k);
  }

  /** For an exact record the host belongs to the managed peer exactly while that
      peer holds it. */
  lemma FoundOwner(d: Device, k: Key, r: Record, found: OwnerResult)
    requires UniqueOwners(d) && Check(d, k, r) && r.Exact()
    requires found.Owned? ==> Longest(d, r.ip, Some(ZERO_KEY), found.owner, found.prefix)
    requires found.Unowned? ==> forall i, p :: !Candidate(d, r.ip, Some(ZERO_KEY), i, p)
    requires found.Ambiguous? ==> !UniqueOwners(d)
    ensures found == Owned(if HoldsHost(d, k) then k else r.owner, r.prefix)
  {
    var i := if HoldsHost(d, k) then k else r.owner;
    assert Longest(d, r.ip, Some(ZERO_KEY), i, r.prefix);
    assert Candidate(d, r.ip, Some(ZERO_KEY), i, r.prefix);
    LongestIsUnique(d, r.ip, Some(ZERO_KEY), i, r.prefix, found.owner, found.prefix);
  }
}
