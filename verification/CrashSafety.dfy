/** Whole runs of the controller: any commands, any faults, any number of crashes
    and restarts. */
module CrashSafety {
  import opened Common
  import opened Kernel
  import opened Journal
  import opened Recovery
  import opened Control

  datatype Command =
    | Add(key: Key, ip: Addr, psk: Key, endpoint: Endpoint)
    | Rekey(key: Key, oldPsk: Key, newPsk: Key)
    | Restore(key: Key)
    | RestoreAll
    | Kill // The process dies between two operations.

  method Execute(c: Controller, command: Command) returns (o: Outcome)
    requires c.Closed() && (c.w.exclusive ==> c.Safe() && ZeroKeyHidesNothing(c.w.local, c.w.boot))
    modifies c, c.w
    ensures c.ClosedAfter(o) && (c.w.exclusive ==> c.SafeAfter(o))
  {
    match command
    case Add(key, ip, psk, endpoint) => o := c.Apply(key, ip, psk, endpoint);
    case Rekey(key, oldPsk, newPsk) => o := c.Rekey(key, oldPsk, newPsk);
    case Restore(key) => o := c.Restore(key);
    case RestoreAll => o := c.RestoreAll();
    case Kill => o := Crashed;
  }

  /** Any commands. A process that is not running is started first; one whose
      startup fails is started again. */
  method Run(c: Controller, commands: seq<Command>)
    requires c.DiskClosed() && (c.w.exclusive ==> c.DiskSafe() && ZeroKeyHidesNothing(c.w.local, c.w.boot))
    modifies c, c.w
    ensures c.DiskClosed() && (c.w.exclusive ==> c.DiskSafe())
  {
    var running := false;
    for i := 0 to |commands|
      invariant c.DiskClosed() && (running ==> c.Closed())
      invariant c.w.exclusive ==> c.DiskSafe() && (running ==> c.Safe())
    {
      if running {
        var o := Execute(c, commands[i]);
        running := o != Crashed;
      } else {
        var o := c.Start();
        running := o == Ok;
      }
    }
  }

  /** Whatever a run did and wherever it was cut, one startup without faults ends
      with an empty journal and exactly the baseline. */
  method CrashAnywhere(local: Local, base: Device, commands: seq<Command>, faults: seq<Fault>) returns (device: Device, disk: Records)
    requires UniqueOwners(base) && ZeroKeyHidesNothing(local, base)
    ensures device == base && disk == map[]
  {
    var w := new World(local, base, true, false, faults);
    var c := new Controller(w);
    EmptyIsBaseline(local, base, base);
    Run(c, commands);
    w.Calm();
    var o := c.Start();
    device, disk := w.device, w.disk;
  }

  /** Whatever another program writes, from any configuration and through any faults
      and crashes: startup accepts every journal ever saved, each record left the file
      only after a read that showed its peer absent and its owner in place, and each
      request named a managed peer or the owner recorded for it. */
  method AnyWriter(local: Local, base: Device, commands: seq<Command>, faults: seq<Fault>)
    returns (disk: Records, drops: set<Removal>, writes: seq<Write>)
    ensures ValidRecords(local, disk)
    ensures forall x :: x in drops ==> Settles(x.seen, x.key, x.record)
    ensures forall i :: 0 <= i < |writes| ==> FairWrite(writes[i])
  {
    var w := new World(local, base, false, false, faults);
    var c := new Controller(w);
    Run(c, commands);
    disk, drops, writes := w.disk, w.drops, w.writes;
  }

  /** The condition on the baseline is needed: where it fails for a host, adding a
      peer for that host is refused only after its plan is in the journal, and no
      later startup can complete or drop that record. */
  method ZeroKeyStrands(local: Local, base: Device, key: Key, ip: Addr, psk: Key, endpoint: Endpoint, ghost o: Key, ghost p: Prefix)
    returns (added: Outcome, restarted: Outcome, device: Device, disk: Records)
    requires UniqueOwners(base)
    requires local.usable(ip) && Longest(base, ip, Some(ZERO_KEY), o, p) && o != local.public && !Longest(base, ip, None, o, p)
    requires key !in base && key != ZERO_KEY && key != local.public && endpoint.port != 0 && local.usable(endpoint.addr)
    ensures added == Failed && restarted == Failed && device == base && disk == map[key := PlannedRecord(ip, o, p, psk)]
  {
    var w := new World(local, base, false, false, []);
    var c := new Controller(w);
    ghost var r := PlannedRecord(ip, o, p, psk);
    PlanConflicts(base, key, ip, o, p, psk);
    assert c.Refused(key, ip, psk, endpoint, o, p);
    added := c.Apply(key, ip, psk, endpoint);
    assert ValidRecords(local, w.disk) by {
      assert w.disk.Keys == {key};
    }
    assert Conflicting(w.device, w.disk) == w.disk;
    restarted := c.Start();
    device, disk := w.device, w.disk;
    UncoveredByNothing(base, Recovered(base, map[key := r]), device);
  }

  lemma PlanConflicts(d: Device, key: Key, ip: Addr, o: Key, p: Prefix, psk: Key)
    requires key !in d && Longest(d, ip, Some(ZERO_KEY), o, p) && !Longest(d, ip, None, o, p)
    ensures !Check(d, key, PlannedRecord(ip, o, p, psk))
  {
    var r := PlannedRecord(ip, o, p, psk);
    assert Candidate(d, ip, None, o, p);
    assert exists k, q :: Candidate(d, ip, None, k, q) && |q.bits| > |p.bits|;
    assert !r.Exact();
    assert forall k, q :: Candidate(d, ip, None, k, q) ==> Candidate(d, ip, Some(key), k, q);
  }

  /** Restoring no record leaves the device alone. */
  lemma UncoveredByNothing(d: Device, none: Records, b: Device)
    requires Overlays(d, none, b) && none == map[]
    ensures d == b
  {
    forall k | k in b ensures k in d && d[k] == b[k] {
      assert SamePeer(d, none, b, k);
      assert forall m, p :: !Lent(d, none, m, k, p);
      assert d[k].allowed == b[k].allowed;
    }
    assert d.Keys == b.Keys;
  }
}
