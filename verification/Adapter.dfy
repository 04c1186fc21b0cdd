/** The Rosenpass adapter of rosenpass_linux.go: one child process, one published key
    file, and the status by which psk.go trusts that file. Every method runs under
    the adapter's lock; process and file operations may fail. */
module Adapter {
  import opened Common
  import Kernel

  const LIFETIME: Time := 3 * MINUTE

  /** A validated endpoint on a local link. */
  type Endpoint = nat

  datatype Status = Status(
    instance: nat, generation: nat, keyGeneration: nat, hash: Kernel.Digest, expires: Time, valid: bool)

  /** A child is identified by the generation it was started in. */
  datatype Child = Child(generation: nat)

  datatype Report = Exchanged | Stale | Invalid | Other

  /** A raw key file that was read, and when it was written. */
  datatype Raw = Raw(key: Key, writtenAt: Time)

  /** The published contents of a file after `first` stayed what they were then. */
  ghost predicate Steady(contents: seq<Option<Key>>, first: nat) {
    first < |contents| && forall i :: first <= i < |contents| ==> contents[i] == contents[first]
  }

  class Adapter {
    const instance: nat
    var status: Status
    var endpoint: Option<Endpoint>
    var child: Option<Child>
    var failed: bool            // A sticky error.
    var lastHash: Kernel.Digest
    var retryAfter: Time
    var contents: seq<Option<Key>> // What the published file has held, each time it changed.
    ghost var published: map<nat, nat> // For each key generation, the contents it published.

    /** The published file now. */
    function File(): Option<Key>
      reads this`contents
      requires contents != []
    {
      contents[|contents| - 1]
    }

    /** Without a sticky error the file is there exactly while the status is valid;
        then it has the status's hash and belongs to the running child. */
    ghost predicate Valid()
      reads this
    {
      && Sane()
      && (!failed ==> (File().Some? <==> status.valid))
      && (status.valid ==>
            && !failed && File().Some? && status.hash == Kernel.Sha256(File().value) == lastHash
            && child == Some(Child(status.generation))
            && status.keyGeneration in published && published[status.keyGeneration] == |contents| - 1)
    }

    ghost predicate Sane()
      reads this
    {
      && contents != [] && status.instance == instance
      && (child.Some? ==> child.value.generation == status.generation)
      && (forall g :: g in published ==> g <= status.keyGeneration && published[g] < |contents|)
    }

    /** Counters and records only grow; a sticky error stays, and after it nothing
        becomes valid or starts. */
    twostate predicate Onward()
      reads this
    {
      && old(status).generation <= status.generation && old(status).keyGeneration <= status.keyGeneration
      && old(contents) <= contents
      && (forall g :: g in old(published) ==> g in published && published[g] == old(published)[g])
      && (old(failed) ==> failed && !status.valid && status.generation == old(status).generation && (child == old(child) || child.None?))
    }

    method Chance() returns (b: bool) {
      b := *;
    }

    method ReadRaw() returns (raw: Option<Raw>) {
      raw := *;
    }

    /** Startup: whatever file an earlier adapter left is removed first. */
    constructor (instance: nat, left: seq<Option<Key>>)
      requires left != []
      ensures Valid() && this.instance == instance && child.None? && !status.valid && left <= contents
    {
      this.instance := instance;
      status := Status(instance, 0, 0, Kernel.ZeroDigest, 0, false);
      endpoint, child, failed, lastHash, retryAfter := None, None, false, Kernel.ZeroDigest, 0;
      contents, published := left, map[];
      new;
      ghost var removed := Invalidate();
    }

    method Invalidate() returns (ghost removed: bool)
      requires Sane()
      modifies this`status, this`failed, this`contents
      ensures Valid() && Onward() && !status.valid && (!failed ==> File().None?)
      ensures status == old(status).(valid := false, hash := Kernel.ZeroDigest, expires := 0)
      ensures failed <==> old(failed) || !removed
      ensures contents == if removed then old(contents) + [None] else old(contents)
    {
      status := status.(valid := false, hash := Kernel.ZeroDigest, expires := 0);
      var ok := Chance();
      removed := File().None? || ok;
      if File().None? || ok {
        contents := contents + [None];
      } else {
        failed := true;
      }
    }

    /** The output goes first, then the child. */
    method Stop()
      requires Valid()
      modifies this`status, this`failed, this`contents, this`child
      ensures Valid() && Onward() && !status.valid && child.None? && (!failed ==> File().None?)
      ensures status == old(status).(valid := false, hash := Kernel.ZeroDigest, expires := 0)
    {
      ghost var removed := Invalidate();
      var had := child.Some?;
      child := None;
      if had {
        var stopped := Chance();
        var cleaned := Chance();
        if !stopped || !cleaned { failed := true; }
      }
    }

    /** The child lives and the status, if valid, has not expired. */
    ghost predicate Running(ended: bool, now: Time)
      reads this
    {
      child.Some? && !ended && (status.valid ==> now < status.expires)
    }

    twostate predicate Untouched()
      reads this
    {
      status == old(status) && failed == old(failed) && contents == old(contents) && child == old(child)
    }

    method Refresh(now: Time) returns (ghost ended: bool)
      requires Valid()
      modifies this`status, this`failed, this`contents, this`child
      ensures Valid() && Onward() && (status.valid ==> now < status.expires && status == old(status) && contents == old(contents))
      ensures status.generation == old(status).generation && (child == old(child) || child.None?)
      ensures old(child).None? || old(Running(ended, now)) ==> Untouched()
      ensures ended ==> child.None? && !status.valid
    {
      ended := false;
      if child.Some? {
        var done := Chance();
        ended := done;
        if done {
          Stop();
          return;
        }
      }
      if status.valid && (child.None? || status.expires <= now) { ghost var removed := Invalidate(); }
    }

    /** A request of the daemon; no endpoint withdraws it. `None` is an error. A request
        that is repeated while the child runs disturbs nothing. */
    method Request(wanted: Option<Endpoint>, now: Time) returns (r: Option<Status>, ghost onLink: bool, ghost ended: bool)
      requires Valid()
      modifies this
      ensures Valid() && Onward()
      ensures r.Some? ==> r.value == status && !failed
      ensures r.Some? && status.valid ==> wanted.Some? && now < status.expires && status == old(status) && contents == old(contents)
      ensures r.Some? ==> endpoint == wanted
      ensures r.Some? && wanted.Some? ==> child.Some? || now < retryAfter
      ensures wanted.None? ==> child.None? && !status.valid && (r.Some? <==> !failed)
      ensures wanted.Some? && !onLink ==> r.None? && child.None? && !status.valid
      ensures wanted.Some? && onLink && wanted == old(endpoint) && !old(failed) && old(Running(ended, now)) ==>
                r == Some(old(status)) && Untouched() && endpoint == old(endpoint) && lastHash == old(lastHash) && retryAfter == old(retryAfter)
      ensures wanted.Some? && onLink && wanted == old(endpoint) && !old(failed) && old(child).None? && now < old(retryAfter) ==>
                r == Some(old(status)) && Untouched() && retryAfter == old(retryAfter)
      ensures wanted.Some? && wanted != old(endpoint) && r.Some? && 0 <= now ==>
                child == Some(Child(old(status).generation + 1)) && status.generation == old(status).generation + 1 && !status.valid
    {
      onLink, ended := true, false;
      if wanted.None? {
        endpoint := None;
        Stop();
        r := if failed then None else Some(status);
        return;
      }
      var found := Chance();
      onLink := found;
      if !found {
        Stop();
        r := None;
        return;
      }
      ended := Refresh(now);
      if failed {
        r := None;
        return;
      }
      if wanted != endpoint {
        Stop();
        if failed {
          r := None;
          return;
        }
        endpoint, retryAfter := wanted, 0;
      }
      if child.None? && retryAfter <= now {
        var ok := Start(now);
        if !ok {
          r := None;
          return;
        }
      }
      r := Some(status);
    }

    method Start(now: Time) returns (ok: bool)
      requires Valid() && child.None? && !failed
      modifies this`status, this`lastHash, this`retryAfter, this`child
      ensures Valid() && Onward() && !status.valid && (ok <==> child == Some(Child(status.generation)))
      ensures status == old(status).(generation := old(status).generation + 1) && retryAfter == now + SECOND
    {
      status := status.(generation := status.generation + 1);
      lastHash, retryAfter := Kernel.ZeroDigest, now + SECOND;
      ok := Chance();
      if ok { child := Some(Child(status.generation)); }
    }

    /** The child exited, or its output was lost. */
    method Exit(c: Child)
      requires Valid()
      modifies this`status, this`failed, this`contents, this`child
      ensures Valid() && Onward() && child != Some(c)
    {
      if child == Some(c) { Stop(); }
    }

    /** The child reports on its key exchange. */
    method Event(c: Child, report: Report, at: Time) returns (ghost ended: bool, ghost found: Option<Raw>, ghost done: bool)
      requires Valid()
      modifies this
      ensures Valid() && Onward()
      ensures old(child) != Some(c) ==> Untouched()
      ensures status.valid ==> at < status.expires <= at + 3 * MINUTE || status == old(status)
      ensures child == old(child) || child.None?
      ensures old(child) == Some(c) && (report == Stale || report == Invalid) ==> !status.valid && (failed || child.None?)
      ensures old(child) == Some(c) && old(Running(ended, at)) && !old(failed) && report == Exchanged ==> Settled(old(lastHash), found, done, at)
      ensures old(child) == Some(c) && old(Running(ended, at)) && report == Other ==> Untouched()
    {
      ended, found, done := false, None, false;
      if child != Some(c) || c.generation != status.generation { return; }
      ended := Refresh(at);
      if failed || child != Some(c) { return; }
      match report
      case Exchanged => found, done := Exchange(at);
      case Stale => Stop();
      case Invalid => Stop();
      case Other =>
    }

    /** A new key whose raw file is young is published, until the file or the report is
        three minutes old; any other new or unreadable key ends validity. */
    twostate predicate Settled(last: Kernel.Digest, new found: Option<Raw>, done: bool, at: Time)
      reads this
    {
      if found.None? then !status.valid
      else if Kernel.Sha256(found.value.key) == last then Untouched()
      else if done && at < found.value.writtenAt + 3 * MINUTE then
        && status.valid && contents != [] && File() == Some(found.value.key)
        && status.expires == (if found.value.writtenAt < at then found.value.writtenAt else at) + 3 * MINUTE
      else !status.valid
    }

    /** A new key is published for as long as its raw file is young; a repeated one
        neither renews nor revives anything. */
    method Exchange(at: Time) returns (ghost found: Option<Raw>, ghost done: bool)
      requires Valid() && !failed && child.Some?
      modifies this`status, this`failed, this`contents, this`lastHash, this`published
      ensures Valid() && Onward() && Settled(old(lastHash), found, done, at)
      ensures found.Some? && Kernel.Sha256(found.value.key) == old(lastHash) ==> status == old(status) && contents == old(contents)
      ensures found.None? ==> !status.valid
      ensures status.valid && found.Some? ==> File() == Some(found.value.key) && (status == old(status) || status.expires <= found.value.writtenAt + 3 * MINUTE)
      ensures status.valid ==> at < status.expires <= at + 3 * MINUTE || status == old(status)
    {
      var raw := ReadRaw();
      found, done := raw, false;
      if raw.None? {
        ghost var removed := Invalidate();
        return;
      }
      if Kernel.Sha256(raw.value.key) == lastHash { return; }
      var bound := raw.value.writtenAt + LIFETIME;
      var expires := if bound < at + LIFETIME then bound else at + LIFETIME;
      if expires <= at {
        ghost var removed := Invalidate();
        return;
      }
      done := Publish(raw.value.key, expires);
    }

    /** Replacing the file may fail after the fact. */
    method Publish(key: Key, expires: Time) returns (ghost done: bool)
      requires Valid() && !failed && child.Some?
      modifies this`status, this`failed, this`contents, this`lastHash, this`published
      ensures Valid() && Onward() && (status.valid <==> done)
      ensures done ==> status.expires == expires && File() == Some(key) && status.keyGeneration == old(status).keyGeneration + 1
      ensures done ==> status.generation == old(status).generation && lastHash == Kernel.Sha256(key) == status.hash
    {
      var replaced := Chance();
      var reported := Chance();
      done := replaced && reported;
      if !replaced || !reported {
        if replaced { contents := contents + [Some(key)]; }
        ghost var removed := Invalidate();
        return;
      }
      contents, lastHash := contents + [Some(key)], Kernel.Sha256(key);
      status := status.(keyGeneration := status.keyGeneration + 1, hash := Kernel.Sha256(key), expires := expires, valid := true);
      published := published[status.keyGeneration := |contents| - 1];
    }
  }

  /** What else may happen between two requests of the daemon. */
  datatype Happening =
    | Asked(wanted: Option<Endpoint>, now: Time)
    | Told(c: Child, report: Report, at: Time)
    | Ticked(now: Time)
    | Exited(c: Child)
    | Restarted(instance: nat) // Another process takes over; its ID is new.

  method Happen(a: Adapter, x: Happening, known: set<nat>) returns (b: Adapter)
    requires a.Valid() && a.instance in known
    modifies a
    ensures b.Valid() && old(a.contents) <= b.contents
    ensures if b == a then a.Onward() else fresh(b) && x.Restarted? && b.instance == x.instance && x.instance !in known
  {
    b := a;
    match x
    case Asked(wanted, now) => {
      var r;
      ghost var onLink, ended;
      r, onLink, ended := a.Request(wanted, now);
    }
    case Told(c, report, at) => {
      ghost var ended, found, done := a.Event(c, report, at);
    }
    case Ticked(now) => {
      ghost var ended := a.Refresh(now);
    }
    case Exited(c) => a.Exit(c);
    case Restarted(instance) => if instance !in known { b := new Adapter(instance, a.contents); }
  }

  /** The daemon reads status, file and status again, the file as it was at any
      moment in between. A key it accepts was the published one all that time, and
      the adapter was the same process. A valid key of the same endpoint is accepted
      if nothing happens in between. */
  method ReadPeerKey(a: Adapter, wanted: Endpoint, start: Time, happenings: seq<Happening>, moment: nat, end: Time)
    returns (key: Option<Key>, first: nat, b: Adapter, ghost replies: (Option<Status>, Option<Status>), ghost calm: bool)
    requires a.Valid() && start <= end
    modifies a
    ensures b.Valid() && (key.Some? ==> b == a)
    ensures key.Some? ==> Steady(a.contents, first) && first < |a.contents| && a.contents[first] == key
    ensures key.Some? ==> a.status.valid && a.status.hash == Kernel.Sha256(key.value) && end < a.status.expires
    ensures happenings == [] && replies.0.Some? && replies.0.value.valid && replies.1 == replies.0 && end < replies.0.value.expires ==>
              b == a && key == a.File() && key.Some?
    ensures happenings == [] && calm && old(a.status.valid) && old(a.endpoint) == Some(wanted) && end < old(a.status.expires) ==>
              key == old(a.File()) && key.Some? && a.status == old(a.status)
  {
    ghost var onLink, ended, onLink', ended';
    var before, after;
    key, b := None, a;
    before, onLink, ended := a.Request(Some(wanted), start);
    replies, calm := (before, None), onLink && !ended;
    first := |a.contents| - 1;
    if before.None? || !before.value.valid || before.value.expires <= start { return; }
    ghost var g := a.status.keyGeneration;
    var known := {a.instance};
    for i := 0 to |happenings|
      invariant b.Valid() && b.instance in known && a.instance in known && (b == a || fresh(b)) && first < |b.contents|
      invariant b != a ==> b.instance != a.instance
      invariant b == a ==> a.status.keyGeneration >= g && g in a.published && a.published[g] == first
      invariant i == 0 ==> b == a && before == Some(a.status) && first == |a.contents| - 1
      invariant i == 0 && old(a.status.valid) && old(a.endpoint) == Some(wanted) && end < old(a.status.expires) && calm ==>
                  a.status == old(a.status) && a.contents == old(a.contents) && a.endpoint == Some(wanted)
    {
      b := Happen(b, happenings[i], known);
      known := known + {b.instance};
    }
    after, onLink', ended' := b.Request(Some(wanted), end);
    replies, calm := (before, after), calm && onLink' && !ended';
    // The read, between the two requests.
    var file := if first + moment < |b.contents| then b.contents[first + moment] else b.File();
    if file.None? || Kernel.Sha256(file.value) != before.value.hash { return; }
    if after != before || end >= before.value.expires { return; }
    key := file;
  }
}
