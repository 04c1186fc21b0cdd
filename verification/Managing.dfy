/** The controller behind the route machine: the operations the daemon relies on are
    those of control.go, on a kernel that no one else writes and that does what it
    reports. */
module Managing {
  import opened Common
  import opened Kernel
  import opened Journal
  import opened Recovery
  import opened Control
  import Mesh

  /** One peer of the daemon, and the endpoint of each path. */
  datatype Direct = Direct(key: Key, ip: Addr, at: Mesh.Path -> Endpoint)

  /** What the daemon believes is what journal and kernel have. */
  ghost predicate Shows(c: Controller, p: Direct, m: Option<Mesh.Managed>)
    reads c, c.w
  {
    match m
    case None => p.key !in c.journal
    case Some(x) =>
      && p.key in c.journal && c.journal[p.key].phase == Active && c.journal[p.key].ip == p.ip && c.journal[p.key].hash == Sha256(x.psk)
      && p.key in c.w.device && c.w.device[p.key].psk == x.psk && c.w.device[p.key].endpoint == Some(p.at(x.path))
  }

  ghost predicate Ready(c: Controller)
    reads c, c.w
  {
    c.w.exclusive && c.w.honest && c.Safe() && c.Closed() && ZeroKeyHidesNothing(c.w.local, c.w.boot)
  }

  method Apply(c: Controller, p: Direct, psk: Key, path: Mesh.Path, ghost was: Option<Mesh.Managed>)
    returns (ok: bool, crashed: bool, ghost now: Option<Mesh.Managed>)
    requires Ready(c) && Shows(c, p, was)
    modifies c, c.w
    ensures Mesh.Applies(was, psk, path, ok, now) && (ok ==> !crashed && Shows(c, p, now)) && (!crashed ==> Ready(c))
    ensures was.Some? && was.value.psk != psk && !crashed ==> Shows(c, p, was)
  {
    var o := c.Apply(p.key, p.ip, psk, p.at(path));
    ok, crashed := o == Ok, o == Crashed;
    now := if ok then Some(Mesh.Managed(psk, path)) else was;
  }

  method Restore(c: Controller, p: Direct, ghost was: Option<Mesh.Managed>) returns (ok: bool, ghost now: Option<Mesh.Managed>)
    requires Ready(c)
    modifies c, c.w
    ensures Mesh.Restores(ok, now) && (ok ==> Ready(c) && Shows(c, p, now))
  {
    var o := c.Restore(p.key);
    ok := o == Ok;
    now := if ok then None else was;
  }

  /** A failure that is not a crash leaves a controller that can still restore. */
  method Rekey(c: Controller, p: Direct, from: Key, psk: Key, ghost was: Option<Mesh.Managed>)
    returns (ok: bool, crashed: bool, ghost now: Option<Mesh.Managed>)
    requires Ready(c) && Shows(c, p, was)
    modifies c, c.w
    ensures Mesh.Rekeys(was, from, psk, ok, now) && (ok ==> !crashed && Shows(c, p, now)) && (!crashed ==> Ready(c))
    ensures was.None? || was.value.psk != from ==> Shows(c, p, was)
  {
    var o := c.Rekey(p.key, from, psk);
    ok, crashed := o == Ok, o == Crashed;
    now := if ok then Some(was.value.(psk := psk)) else was;
  }
}
