/** One peer of a running daemon: mesh.go and psk.go step by step. Key polls,
    health, measurements on the LAN, controller failures and elapsed time are
    arbitrary. A method that returns false has failed, and the daemon stops. */
module MeshPeers {
  import opened Common
  import opened Measure
  import opened Story
  import opened Mesh
  import opened Steps

  /** An operation that handles an event hears and proposes nothing more. */
  ghost predicate Along(h: History, h': History) {
    && h'.event.clock == h.event.clock && h'.event.message == h.event.message && h'.event.before == h.event.before
    && h.event.latest <= h'.event.latest
    && h'.past.heard == h.past.heard && h'.past.proven == h.past.proven
    && h.past.said <= h'.past.said && h.past.proved <= h'.past.proved
    && h'.ledger.told == h.ledger.told && h'.ledger.proposed == h.ledger.proposed && h.ledger.prepares <= h'.ledger.prepares
    && h'.ledger.forgotten == h.ledger.forgotten && h'.boot == h.boot && h.log <= h'.log
  }

  /** Most take up no token either, */
  ghost predicate Calm(h: History, h': History) {
    Along(h, h') && h'.event.opening == h.event.opening && h'.event.admitted == h.event.admitted && h'.ledger.used == h.ledger.used
  }

  /** and log nothing. */
  ghost predicate Onward(h: History, h': History) {
    Calm(h, h') && h'.log == h.log
  }

  /** The trial of what was agreed on, with nothing measured yet; a replaced route is
      saved. */
  ghost predicate TrialOf(was: Route, replacement: Option<Proposal>, r: Route, previous: Option<Route>) {
    && r.phase == Trial && r.tunnel == Measurements(Some(r.since), []) && r.lastTunnel.None? && r.resumed.None?
    && (if replacement.Some? then
          var x := replacement.value;
          && r.selected == Some(x.path) && r.trial == x.token && r.baseline == x.baseline && r.remoteRekey == x.remoteRekey
          && !r.localGood && !r.remoteGood && !r.committed && previous == Some(was)
        else
          && r.selected == was.selected && r.trial == was.trial && r.baseline == was.baseline && r.remoteRekey == was.remoteRekey
          && r.localGood == was.localGood && r.remoteGood == was.remoteGood && r.committed == was.committed)
  }

  /** What a message is about. */
  datatype Subject = Pending | Saved | Current | Nothing

  /** What the peer says about a route: a hold withdraws a keep, a keep counts from now if
      the route is installed, and the peer has installed what it confirms. */
  predicate Heeds(was: Route, r: Route, op: Op, now: Time) {
    match op
    case Hold => r == was.(remoteGood := false)
    case Keep => if was.phase == Trial || was.phase == Active then r == was.(remoteGood := true, remoteAt := now) else r == was
    case Committed => r == was.(committed := true)
    case _ => r == was
  }

  /** A saved route after a message about it. */
  predicate AfterMessage(was: Route, previous: Option<Route>, op: Op, now: Time) {
    match op
    case Abort => previous.None?
    case Keep => previous.Some? && Heeds(was, previous.value, Keep, now)
    case Hold => previous.Some? && Heeds(was, previous.value, Hold, now)
    case _ => previous == Some(was)
  }

  /** The tunnel median improves on the baseline. */
  predicate BetterNow(r: Route, now: Time, c: Config)
    requires c.Legal()
  {
    Median(r.tunnel, now, c).Some? && Improves(Median(r.tunnel, now, c).value, r.baseline, c)
  }

  /** A tick can also propose. */
  ghost predicate Ticked(h: History, h': History) {
    && h'.past.heard == h.past.heard && h'.past.proven == h.past.proven
    && h.past.said <= h'.past.said && h.past.proved <= h'.past.proved
    && h'.ledger.told == h.ledger.told && h.ledger.prepares <= h'.ledger.prepares && h.event.latest <= h'.event.latest
    && h.log <= h'.log
    && forall t :: t in h.ledger.proposed ==> t in h'.ledger.proposed && h'.ledger.proposed[t] == h.ledger.proposed[t]
  }

  class MeshPeer {
    const c: Config
    const leader: bool   // This node's public key sorts before the peer's.
    const file: bool     // The preshared key comes from a file.
    const rekeyOn: bool  // In-place rekeying is enabled.

    var route: Route
    var psk: Key
    var pskValid: bool
    var status: Option<Status>
    var rekey: Option<Transition>
    var completed: Option<Transition>
    var replacement: Option<Proposal>
    var previous: Option<Route>
    var cooldown: Time
    var retired: map<Token, Time>
    var retiredUntil: Time
    var paths: map<Path, Lan>    // Every path ever found,
    var known: set<Path>         // and those still listed.
    var pending: map<Token, Probe>
    var managed: Option<Managed> // What the controller has; only its operations change it.
    var mismatch: bool           // The controller ever found another key than it was told.
    var h: History // A record of the run that no operation reads.

    function Value(): State
      reads this
    {
      State(Settings(c, leader, file, rekeyOn), Routes(route, replacement, previous, rekey, completed, psk),
            Cache(retired, retiredUntil), cooldown, paths, pending, h)
    }

    /** What the daemon keeps even while it changes the controller, or stops. */
    ghost predicate Sane()
      reads this
    {
      Fit(Value()) && !mismatch
    }

    /** Which parts may coexist, under a legal policy. */
    lemma Shaped()
      requires Sane()
      ensures c.Legal() && Shape(leader, route, replacement, previous, rekey, completed)
    {
      assert Holds(Protocol, Value()) && Holds(Words, Value());
    }

    /** The controller agrees with the route. */
    ghost predicate Follows()
      reads this`managed, this`psk, this`route
    {
      Controlled(managed, psk, route)
    }

    ghost predicate Valid()
      reads this
    {
      Sane() && Follows()
    }

    /** After an operation: a failure stops the daemon, whatever the controller then has. */
    ghost predicate Ends(alive: bool)
      reads this
    {
      Sane() && (alive ==> Follows())
    }

    predicate Fresh(path: Path, now: Time)
      reads this`paths
    {
      FreshAt(paths, path, now, c.failure)
    }

    /* ----- the environment ----- */

    method Chance() returns (b: bool) {
      b := *;
    }

    method RandomToken() returns (t: Token) {
      t := *;
    }

    method ReadKey() returns (reading: Option<Reading>) {
      reading := *;
    }

    method Handshake() returns (t: Option<Time>) {
      t := *;
    }

    /** Read the clock again. */
    method Later(now: Time) returns (t: Time)
      requires Sane()
      modifies this`h
      ensures Sane() && h == old(h).(event := old(h.event).(latest := h.event.latest))
      ensures now <= t <= h.event.latest && old(h.event.latest) <= h.event.latest
    {
      t := *;
      if t < now { t := now; }
      PassKeeps(Value(), t);
      h := Passed(Value(), t).h;
    }

    /** Any message may be lost. */
    method Send(op: Op, token: Token, now: Time)
      modifies this`h
      ensures h == Said(old(Value()), op, token, now).h
    {
      h := Said(Value(), op, token, now).h;
    }

    method Command(op: Op, token: Token, now: Time)
      requires Sane() && SayGuard(c, Value().r, op, token, now)
      modifies this`h
      ensures Sane() && h == Said(old(Value()), op, token, now).h
    {
      SayKeeps(Value(), op, token, now);
      Send(op, token, now);
    }

    method RekeyCommand(x: Transition, op: Op, now: Time)
      requires Sane() && RekeyGuard(Value().r, op, x)
      modifies this`h
      ensures Sane() && h == Spoken(old(Value()), op, x.token, x.key).h
    {
      SayRekeyKeeps(Value(), op, x);
      h := Spoken(Value(), op, x.token, x.key).h;
    }

    /* ----- the controller ----- */

    method ControlApply(key: Key, path: Path) returns (ok: bool)
      modifies this`managed, this`mismatch
      ensures mismatch == (old(mismatch) || (old(managed).Some? && old(managed).value.psk != key))
      ensures Applies(old(managed), key, path, ok, managed)
    {
      if managed.Some? && managed.value.psk != key {
        mismatch := true;
        return false;
      }
      ok := Chance();
      managed := Leftover();
      if ok { managed := Some(Managed(key, path)); }
    }

    method ControlRestore() returns (ok: bool)
      modifies this`managed
      ensures Restores(ok, managed)
    {
      ok := Chance();
      managed := Leftover();
      if ok { managed := None; }
    }

    method ControlRekey(was: Key, key: Key) returns (ok: bool)
      modifies this`managed, this`mismatch
      ensures mismatch == (old(mismatch) || old(managed).None? || old(managed).value.psk != was)
      ensures Rekeys(old(managed), was, key, ok, managed)
    {
      if managed.None? || managed.value.psk != was {
        mismatch := true;
        return false;
      }
      ok := Chance();
      var path := managed.value.path;
      managed := Leftover();
      if ok { managed := Some(Managed(key, path)); }
    }

    method Leftover() returns (m: Option<Managed>) {
      m := *;
    }

    /* ----- retired tokens ----- */

    method PruneRetired(now: Time)
      modifies this`retired
      ensures retired == Live(old(retired), now)
      ensures forall t :: t in retired <==> t in old(retired) && now < old(retired)[t]
    {
      var todo := retired.Keys;
      while todo != {}
        invariant todo <= old(retired).Keys
        invariant retired == map t | t in old(retired) && (t in todo || now < old(retired)[t]) :: old(retired)[t]
        decreases todo
      {
        var t :| t in todo;
        if retired[t] <= now { retired := retired - {t}; }
        todo := todo - {t};
      }
    }

    /** A live token is never evicted: a full cache refuses every proposal instead. */
    method Retire(token: Token, now: Time)
      modifies this`retired, this`retiredUntil, this`h
      ensures Value() == Retired(old(Value()), token, now)
      ensures token != NO_TOKEN ==>
                var live := Live(old(retired), now);
                if |live| >= 1024 then retired == live && retiredUntil == now + 13 * MINUTE
                else retired == live[token := now + 13 * MINUTE] && retiredUntil == old(retiredUntil)
    {
      h := Retired(Value(), token, now).h;
      if token == NO_TOKEN { return; }
      PruneRetired(now);
      if |retired| >= MAX_RETIRED {
        retiredUntil := now + RETIRED;
      } else {
        retired := retired[token := now + RETIRED];
      }
    }

    method CancelReplacement(now: Time)
      requires Sane() && Now(h, now)
      modifies this`replacement, this`retired, this`retiredUntil, this`cooldown, this`h
      ensures Sane() && Onward(old(h), h) && replacement.None?
      ensures cooldown == if old(replacement).Some? then now + c.cooldown else old(cooldown)
      ensures old(replacement).None? ==> h == old(h)
      ensures old(replacement).Some? ==> Fact(Abort, old(replacement).value.token) in h.past.said
    {
      if replacement.Some? {
        CancelKeeps(Value(), now);
        Cancel(now);
      }
    }

    method Cancel(now: Time)
      requires replacement.Some?
      modifies this`replacement, this`retired, this`retiredUntil, this`cooldown, this`h
      ensures Value() == Cancelled(old(Value()), now)
    {
      var r := replacement.value;
      Send(Abort, r.token, now);
      Retire(r.token, now);
      replacement := None;
      cooldown := now + c.cooldown;
    }

    /** Nothing of a direct route is left. */
    predicate Bare(r: Route) {
      r.selected.None? && r.trial == NO_TOKEN && !r.localGood && !r.remoteGood && !r.committed && !r.remoteRekey
    }

    /** Back to the stable route. */
    method Restore(now: Time) returns (alive: bool)
      requires Sane() && Now(h, now)
      modifies this`route, this`replacement, this`previous, this`rekey, this`completed, this`cooldown
      modifies this`retired, this`retiredUntil, this`pending, this`managed, this`h
      ensures Ends(alive) && Onward(old(h), h)
      ensures alive ==> route.phase == Idle && rekey.None? && replacement.None? && cooldown == now + c.cooldown && route.tunnel == Measurements(Some(now), []) && route.lastTunnel.None? && Bare(route) && completed.None? && previous.None?
      ensures old(route.selected).Some? ==> Fact(Abort, old(route.trial)) in h.past.said
      ensures old(replacement).Some? ==> Fact(Abort, old(replacement).value.token) in h.past.said
    {
      CancelReplacement(now);
      if route.selected.Some? { Command(Abort, route.trial, now); }
      alive := ControlRestore();
      if alive { GiveUp(now); }
    }

    method GiveUp(now: Time)
      requires Sane() && Now(h, now) && replacement.None? && managed.None?
      modifies this`route, this`previous, this`rekey, this`completed, this`cooldown
      modifies this`retired, this`retiredUntil, this`pending, this`h
      ensures Valid() && Onward(old(h), h)
      ensures route.phase == Idle && rekey.None? && cooldown == now + c.cooldown && route.tunnel == Measurements(Some(now), []) && route.lastTunnel.None? && Bare(route) && completed.None? && previous.None?
    {
      RestoreKeeps(Value(), now);
      ForgetRoute(now);
    }

    method SetStable(now: Time)
      modifies this`route, this`rekey, this`completed, this`cooldown, this`pending, this`h
      ensures Value() == Stable(old(Value()), now)
    {
      route, rekey, completed, pending, cooldown := StableRoute(route, now), None, None, map[], now + c.cooldown;
      h := h.(trips := NewEra(h.trips));
    }

    method ForgetPrevious(now: Time)
      modifies this`previous, this`retired, this`retiredUntil, this`h
      ensures Value() == Forgotten(old(Value()), now)
    {
      if previous.Some? {
        Retire(previous.value.trial, now);
        previous := None;
      }
    }

    /** The controller has given the stable route back. */
    method ForgetRoute(now: Time)
      modifies this`route, this`previous, this`rekey, this`completed, this`cooldown
      modifies this`retired, this`retiredUntil, this`pending, this`h
      ensures Value() == Restored(old(Value()), now)
    {
      Retire(route.trial, now);
      ForgetPrevious(now);
      SetStable(now);
    }

    /* ----- the key file ----- */

    /** The saved route is given up, and its token retired. */
    method DropPrevious(now: Time)
      requires Sane() && Now(h, now)
      modifies this`previous, this`retired, this`retiredUntil, this`h
      ensures Sane() && Onward(old(h), h) && previous.None? && (old(previous).None? ==> h == old(h))
    {
      ForgetKeeps(Value(), now);
      ForgetPrevious(now);
    }

    /** A transition starts with an offer from the leader; the follower waits for it. */
    lemma TransitionStarts(key: Key, token: Token, now: Time)
      ensures var x := NewTransition(leader, key, token, now);
        && x.key == key && x.token == token && x.since == now && x.stage == (if leader then Offering else Waiting)
        && !x.remoteApplied && x.remoteObserved.None?
    {
    }

    method StartTransition(key: Key, now: Time)
      requires Sane() && Now(h, now) && route.phase == Active && rekey.None?
      modifies this`replacement, this`retired, this`retiredUntil, this`cooldown, this`rekey, this`h
      ensures Sane() && Onward(old(h), h) && rekey.Some? && rekey.value == NewTransition(leader, key, rekey.value.token, now) && replacement.None?
      ensures h.ledger.gone == old(h.ledger.gone) || cooldown >= h.event.clock + c.cooldown
    {
      CancelReplacement(now);
      var token := RandomToken();
      StartRekeyKeeps(Value(), NewTransition(leader, key, token, now));
      rekey := Some(NewTransition(leader, key, token, now));
    }

    /** Start a transition to the key, or go on with one. */
    method Transit(key: Key, reported: Option<Status>, now: Time) returns (going: bool)
      requires Sane() && Now(h, now) && route.phase == Active
      modifies this`replacement, this`retired, this`retiredUntil, this`cooldown, this`rekey, this`status, this`h
      ensures Sane() && Onward(old(h), h)
      ensures going == (old(rekey).None? || old(rekey).value.key == key)
      ensures going ==> status == reported && rekey.Some? && rekey.value.key == key
      ensures old(rekey).Some? ==> rekey == old(rekey) && replacement == old(replacement) && h == old(h)
      ensures old(rekey).None? ==> replacement.None?
      ensures h.ledger.gone == old(h.ledger.gone) || cooldown >= h.event.clock + c.cooldown
    {
      if rekey.None? { StartTransition(key, now); }
      going := key == rekey.value.key;
      if going { status := reported; }
    }

    /** The old key is kept until the stable route is restored. */
    method ReplaceKey(key: Key, valid: bool, reported: Option<Status>, now: Time) returns (alive: bool)
      requires Valid() && Now(h, now)
      modifies this
      ensures Ends(alive) && Onward(old(h), h) && paths == old(paths)
      ensures alive ==> route.phase == Idle && replacement.None?
      ensures alive && old(route.phase) != Idle ==> cooldown >= h.event.clock + c.cooldown && route.tunnel.samples == []
      ensures alive && old(route.phase) == Idle ==> h == old(h) && route == old(route)
      ensures alive ==> psk == key && pskValid == valid && status == reported
    {
      alive := true;
      Shaped();
      if route.selected.Some? || route.phase != Idle {
        alive := Restore(now);
        if !alive { return; }
      }
      KeyKeeps(Value(), key);
      psk, pskValid, status := key, valid, reported;
    }

    /** Read the key file again. Unless the route is given up, the key stays as it is;
        a new one is then at most the aim of a transition. */
    method PollPSK(now: Time) returns (alive: bool, ok: bool, ghost reading: Option<Reading>)
      requires Valid() && Now(h, now)
      modifies this
      ensures Ends(alive) && Onward(old(h), h) && paths == old(paths)
      ensures alive && route.phase != Idle ==> ok && route == old(route) && psk == old(psk) && previous == old(previous)
      ensures alive && route.phase != Idle ==> replacement == old(replacement) || (replacement.None? && rekey.Some?)
      ensures alive && route.phase == Idle != old(route.phase) ==> replacement.None?
      ensures alive && route.phase != Idle ==> completed == old(completed) && (old(rekey).Some? ==> rekey == old(rekey))
      ensures alive && old(route.phase) != Idle == route.phase ==> route.tunnel.samples == []
      ensures alive && old(route.phase) == Idle ==> route == old(route)
      ensures alive && h.ledger.gone != old(h.ledger.gone) ==> rekey.Some? || old(route.phase) != Idle == route.phase
      ensures alive && h.ledger.gone != old(h.ledger.gone) ==> cooldown >= h.event.clock + c.cooldown
      ensures if file then alive ==> pskValid == ok else alive && ok && Value() == old(Value())
      ensures file && alive && reading.Some? ==>
                ok && status == reading.value.status && (psk == reading.value.key || (rekey.Some? && rekey.value.key == reading.value.key))
      ensures file && alive && reading.None? ==> !ok && route.phase == Idle && psk == ZERO_KEY && status.None?
      ensures file && reading.Some? && old(Repeats(reading.value)) ==> alive && JustLater() && status == reading.value.status
      ensures file && alive && reading.Some? && old(Transits(reading.value)) ==>
                route == old(route) && psk == old(psk) && rekey.Some? && rekey.value.key == reading.value.key
      ensures file && alive && (reading.Some? ==> !old(Repeats(reading.value)) && !old(Transits(reading.value))) ==>
                route.phase == Idle && psk == if reading.Some? then reading.value.key else ZERO_KEY
    {
      reading := None;
      if !file {
        alive, ok := true, true;
        return;
      }
      var read := ReadKey();
      reading := read;
      var t := Later(now);
      var key := if read.Some? then read.value.key else ZERO_KEY;
      var reported := if read.Some? then read.value.status else None;
      var steady := read.Some? && (status.None? || reported == status) && pskValid;
      if steady && key == psk && (rekey.None? || key == rekey.value.key) {
        status := reported;
        alive, ok := true, true;
        return;
      }
      alive, ok := ChangeKey(key, steady, read.Some?, reported, t);
    }

    /** The same process again, after a valid reading. */
    ghost predicate Steady(x: Reading)
      reads this
    {
      pskValid && (status.None? || x.status == status)
    }

    /** The key in use again, with no transition to another. */
    ghost predicate Repeats(x: Reading)
      reads this
    {
      Steady(x) && x.key == psk && (rekey.None? || rekey.value.key == x.key)
    }

    /** A key that an active route can change to in place. */
    ghost predicate Transits(x: Reading)
      reads this
    {
      && Steady(x) && !Repeats(x) && route.phase == Active && rekeyOn && route.remoteRekey
      && (rekey.None? || rekey.value.key == x.key)
    }

    /** Nothing has changed but the time. */
    twostate predicate JustLater()
      reads this
    {
      && Value() == old(Value()).(h := h) && h == old(h).(event := old(h).event.(latest := h.event.latest))
      && managed == old(managed) && pskValid == old(pskValid) && known == old(known)
    }

    ghost predicate Switchable(key: Key)
      reads this
    {
      route.phase == Active && rekeyOn && route.remoteRekey && (rekey.None? || rekey.value.key == key)
    }

    method ChangeKey(key: Key, steady: bool, valid: bool, reported: Option<Status>, now: Time) returns (alive: bool, ok: bool)
      requires Valid() && Now(h, now) && (steady ==> valid && pskValid)
      modifies this
      ensures Ends(alive) && Onward(old(h), h) && paths == old(paths)
      ensures alive && route.phase != Idle ==> ok && route == old(route) && psk == old(psk) && previous == old(previous)
      ensures alive && route.phase != Idle ==> replacement == old(replacement) || (replacement.None? && rekey.Some?)
      ensures alive && route.phase == Idle != old(route.phase) ==> replacement.None?
      ensures alive && route.phase != Idle ==> completed == old(completed) && (old(rekey).Some? ==> rekey == old(rekey))
      ensures alive && old(route.phase) != Idle == route.phase ==> route.tunnel.samples == []
      ensures alive && old(route.phase) == Idle ==> route == old(route)
      ensures alive && h.ledger.gone != old(h.ledger.gone) ==> rekey.Some? || old(route.phase) != Idle == route.phase
      ensures alive && h.ledger.gone != old(h.ledger.gone) ==> cooldown >= h.event.clock + c.cooldown
      ensures alive && !(steady && old(Switchable(key))) ==> route.phase == Idle && psk == key && pskValid == valid
      ensures steady && old(Switchable(key)) ==> alive && route == old(route) && psk == old(psk) && rekey.Some? && rekey.value.key == key
      ensures alive ==> status == reported && ((psk == key && pskValid == ok == valid) || (ok && pskValid && rekey.Some? && rekey.value.key == key))
    {
      Shaped();
      DropPrevious(now);
      if steady && route.phase == Active && rekeyOn && route.remoteRekey {
        var going := Transit(key, reported, now);
        if going { return true, true; }
      }
      alive := ReplaceKey(key, valid, reported, now);
      ok := alive && valid;
    }

    /* ----- trials ----- */

    /** Return to the saved previous route, or else to the stable one. */
    method Rollback(now: Time) returns (alive: bool, ghost trouble: bool, ghost at: Time)
      requires Valid() && Now(h, now)
      modifies this
      ensures Ends(alive) && Onward(old(h), h) && paths == old(paths)
      ensures alive && route.phase != Idle ==> Resumed(now) && old(previous).Some? && route.selected == old(previous).value.selected
      ensures old(previous).Some? && !trouble && old(previous).value.selected.Some? && Fresh(old(previous).value.selected.value, at) ==> alive && Back(old(previous).value)
    {
      trouble, at := false, now;
      Shaped();
      if previous.None? {
        alive := Restore(now);
        return;
      }
      var back := previous;
      var ok := Chance();
      if !ok {
        alive, trouble := false, true;
        return;
      }
      var t := Later(now);
      ghost var reading;
      alive, ok, reading := PollPSK(t);
      trouble := !alive || !ok || previous != back;
      if !alive || !ok || previous != back { return; }
      alive, trouble, at := ReturnTo(now);
    }

    /** The saved route is in force again, with its own measurements, flags and times. */
    ghost predicate Back(was: Route)
      reads this
    {
      route == was.(resumed := route.resumed) && previous.None?
    }

    /** A rollback has just put the previous route back in force. */
    ghost predicate Resumed(now: Time)
      reads this
    {
      && route.phase == Active && route.selected.Some? && Fresh(route.selected.value, now)
      && route.resumed.Some? && now <= route.resumed.value && cooldown == route.resumed.value + c.cooldown
      && replacement.None? && rekey.None? && previous.None?
    }

    method ReturnTo(now: Time) returns (alive: bool, ghost trouble: bool, ghost at: Time)
      requires Valid() && Now(h, now) && previous.Some?
      modifies this
      ensures Ends(alive) && Onward(old(h), h) && paths == old(paths)
      ensures alive && route.phase != Idle ==> Resumed(now) && old(previous).Some? && route.selected == old(previous).value.selected
      ensures !trouble && old(previous.value.selected).Some? && Fresh(old(previous).value.selected.value, at) ==> alive && Back(old(previous).value)
    {
      Shaped();
      var path := previous.value.selected.value;
      var t := Later(now);
      var linked := Chance();
      trouble, at := !linked, t;
      if !linked || !Fresh(path, t) {
        alive := Restore(t);
        return;
      }
      alive := Reinstall(path, now);
      trouble := !alive;
    }

    method Reinstall(path: Path, now: Time) returns (alive: bool)
      requires Valid() && Now(h, now) && previous.Some? && previous.value.selected == Some(path)
      modifies this
      ensures Ends(alive) && Onward(old(h), h) && paths == old(paths)
      ensures alive ==> previous.None? && route.resumed.Some? && now <= route.resumed.value && route == old(previous).value.(resumed := route.resumed)
      ensures alive ==> route.resumed.Some? && cooldown == route.resumed.value + c.cooldown
      ensures alive ==> replacement == old(replacement) && rekey == old(rekey)
      ensures alive ==> Fact(Abort, old(route.trial)) in h.past.said
    {
      alive := ControlApply(psk, path);
      if !alive { return; }
      var t := Later(now);
      Command(Abort, route.trial, t);
      Resume(t);
    }

    method Resume(now: Time)
      requires Sane() && Now(h, now) && previous.Some?
      requires managed.Some? && managed.value.psk == psk && previous.value.selected == Some(managed.value.path)
      modifies this`route, this`previous, this`cooldown, this`retired, this`retiredUntil, this`pending, this`h
      ensures Valid() && Onward(old(h), h) && previous.None? && cooldown == now + c.cooldown && route == old(previous).value.(resumed := Some(now))
    {
      Shaped();
      RollBackKeeps(Value(), now);
      BackTo(now);
    }

    method BackTo(now: Time)
      requires previous.Some?
      modifies this`route, this`previous, this`cooldown, this`retired, this`retiredUntil, this`pending, this`h
      ensures Value() == RolledBack(old(Value()), now)
    {
      Retire(route.trial, now);
      route, previous, cooldown, pending := previous.value.(resumed := Some(now)), None, now + c.cooldown, map[];
      h := h.(trips := h.trips.(now := h.trips.before));
    }

    /** The message that lets a node install a route: the follower is ready, or the
        leader has committed, for the same token and with the same key. */
    ghost predicate Agreed()
      reads this
    {
      && h.event.message.Some? && h.event.message.value.op == (if leader then Ready else Commit) && h.event.message.value.key == psk
      && (if replacement.Some? then h.event.message.value.token == replacement.value.token
          else (route.phase == Preparing || route.phase == Prepared) && h.event.message.value.token == route.trial)
    }

    /** What is about to be installed is alive and not overdue; so is what it replaces. */
    ghost predicate InTime(now: Time)
      reads this
    {
      if replacement.Some? then
        && Fresh(replacement.value.path, now) && now - replacement.value.since < c.failure
        && route.selected.Some? && Fresh(route.selected.value, now)
        && route.lastTunnel.Some? && now - route.lastTunnel.value < c.failure
      else
        route.selected.Some? && Fresh(route.selected.value, now) && now - route.since < c.failure
    }

    method Apply(now: Time) returns (alive: bool, ghost trouble: bool, ghost at: Time)
      requires Valid() && Now(h, now) && Agreed()
      modifies this
      ensures Ends(alive) && Onward(old(h), h) && paths == old(paths)
      ensures alive ==> replacement.None?
      ensures alive && route.phase != Idle ==>
                if route.phase == Trial then TrialOf(old(route), old(replacement), route, previous) && old(InTime(now))
                else old(replacement).Some? && route == old(route)
      ensures !trouble && old(InTime(at)) ==> alive && TrialOf(old(route), old(replacement), route, previous) && now <= route.since
    {
      var r := replacement;
      var asLeader := route.phase == Preparing || (r.Some? && r.value.phase == Preparing);
      var ok, t;
      Shaped();
      alive, ok, t, trouble := Recheck(now);
      at := t;
      if !alive || !ok { return; }
      if r.Some? && replacement != r { return; }
      if route.selected.None? { return; }
      Shaped();
      ghost var refused;
      alive, refused := ApplyChecked(asLeader, t, now);
      trouble := trouble || refused;
    }

    /** Check the interfaces and the key before anything is installed. */
    method Recheck(now: Time) returns (alive: bool, ok: bool, t: Time, ghost trouble: bool)
      requires Valid() && Now(h, now)
      modifies this
      ensures Ends(alive) && Onward(old(h), h) && paths == old(paths) && now <= t && (alive ==> t <= h.event.latest)
      ensures alive && route.phase != Idle ==> ok && route == old(route) && psk == old(psk) && previous == old(previous)
      ensures alive && route.phase != Idle ==> replacement == old(replacement) || (replacement.None? && rekey.Some?)
      ensures alive && route.phase == Idle != old(route.phase) ==> replacement.None?
      ensures trouble || (alive && ok && replacement == old(replacement) && route == old(route))
    {
      t := now;
      var healthy := Chance();
      if !healthy {
        alive, ok, trouble := false, false, true;
        return;
      }
      var u := Later(now);
      ghost var reading;
      alive, ok, reading := PollPSK(u);
      trouble := !alive || !ok || replacement != old(replacement) || route != old(route);
      t := Later(now);
    }

    method ApplyChecked(asLeader: bool, checkedAt: Time, now: Time) returns (alive: bool, ghost refused: bool)
      requires Valid() && Now(h, now) && Now(h, checkedAt) && Agreed() && route.selected.Some?
      modifies this
      ensures Ends(alive) && Onward(old(h), h) && paths == old(paths)
      ensures alive ==> replacement.None?
      ensures alive && route.phase != Idle ==>
                if route.phase == Trial then TrialOf(old(route), old(replacement), route, previous) && old(InTime(checkedAt))
                else old(replacement).Some? && route == old(route)
      ensures !refused && old(InTime(checkedAt)) ==> alive && TrialOf(old(route), old(replacement), route, previous) && now <= route.since
    {
      refused := false;
      Shaped();
      if replacement.Some? {
        var ok;
        alive, ok := Preflight(checkedAt);
        if !alive || !ok { return; }
      } else if !Fresh(route.selected.value, checkedAt) || checkedAt - route.since >= c.failure {
        alive := Restore(checkedAt);
        return;
      }
      alive := InstallRoute(asLeader, now);
      refused := !alive;
    }

    /** A replacement needs both paths and the tunnel alive. */
    method Preflight(now: Time) returns (alive: bool, ok: bool)
      requires Valid() && Now(h, now) && replacement.Some?
      modifies this
      ensures Ends(alive) && Onward(old(h), h) && paths == old(paths)
      ensures ok ==> alive && Value() == old(Value()) && managed == old(managed) && InTime(now)
      ensures ok <==> old(InTime(now))
      ensures alive && !ok ==> replacement.None? && (route.phase == Idle || route == old(route))
    {
      Shaped();
      var r := replacement.value;
      if !Fresh(r.path, now) || now - r.since >= c.failure {
        CancelReplacement(now);
        return true, false;
      }
      if !Fresh(route.selected.value, now) || route.lastTunnel.None? || now - route.lastTunnel.value >= c.failure {
        alive := Restore(now);
        return alive, false;
      }
      return true, true;
    }

    method InstallRoute(asLeader: bool, now: Time) returns (alive: bool)
      requires Valid() && Now(h, now) && Agreed() && route.selected.Some?
      modifies this
      ensures Ends(alive) && Onward(old(h), h) && paths == old(paths)
      ensures alive ==> replacement.None? && now <= route.since && pending == map[] && TrialOf(old(route), old(replacement), route, previous)
      ensures alive && asLeader ==> Fact(Commit, route.trial) in h.past.said
    {
      var token := if replacement.Some? then replacement.value.token else route.trial;
      var t;
      alive, t := PassOn(now);
      if alive { StartTrial(asLeader, t); } else { SayAbort(token, t); }
    }

    /** Tell the controller what was agreed on. */
    method PassOn(now: Time) returns (ok: bool, t: Time)
      requires Valid() && Now(h, now) && Agreed() && route.selected.Some?
      modifies this`managed, this`mismatch, this`h
      ensures Sane() && Onward(old(h), h) && now <= t <= h.event.latest
      ensures ok ==> managed == Some(Managed(psk, if replacement.Some? then replacement.value.path else route.selected.value))
    {
      Shaped();
      ok := ControlApply(psk, if replacement.Some? then replacement.value.path else route.selected.value);
      t := Later(now);
    }

    method StartTrial(asLeader: bool, now: Time)
      requires Sane() && Agreed() && route.selected.Some?
      requires managed == Some(Managed(psk, if replacement.Some? then replacement.value.path else route.selected.value))
      modifies this`route, this`previous, this`replacement, this`pending, this`h
      ensures Valid() && Onward(old(h), h)
      ensures route.since == now && pending == map[] && replacement.None? && TrialOf(old(route), old(replacement), route, previous)
      ensures asLeader ==> Fact(Commit, route.trial) in h.past.said
    {
      Enter(now);
      if asLeader { Command(Commit, route.trial, now); }
    }

    method SayAbort(token: Token, now: Time)
      requires Sane()
      modifies this`h
      ensures Sane() && Onward(old(h), h)
    {
      Command(Abort, token, now);
    }

    /** The controller has the new route; the trial begins. */
    method Enter(now: Time)
      requires Sane() && Agreed() && route.selected.Some?
      requires managed == Some(Managed(psk, if replacement.Some? then replacement.value.path else route.selected.value))
      modifies this`route, this`previous, this`replacement, this`pending, this`h
      ensures Valid() && Onward(old(h), h)
      ensures route.phase == Trial && route.since == now && pending == map[] && replacement.None? && TrialOf(old(route), old(replacement), route, previous)
    {
      BeginKeeps(Value(), h.event.message.value, now);
      Begin(now);
    }

    method Begin(now: Time)
      modifies this`route, this`previous, this`replacement, this`pending, this`h
      ensures Value() == Begun(old(Value()), now)
    {
      h := Begun(Value(), now).h;
      previous := if replacement.Some? then Some(route) else previous;
      route, replacement, pending := TrialRoute(route, replacement, now), None, map[];
    }

    /* ----- messages ----- */

    /** A token is only taken up in an event that retires nothing, by a machine that was
        free for the path, less than a minute after the message arrived, and for a path
        that qualified when the baseline was read. */
    ghost predicate OpensFairly(was: Routes, path: Path, now: Time)
      reads this
    {
      h.event.opening.Some? ==>
        && !leader && h.ledger.gone == h.event.before && Free(was, path) && now < h.event.clock + MINUTE
        && QualifiedFor(was.route, path, h.event.opening.value)
    }

    ghost predicate QualifiedFor(was: Route, path: Path, token: Token)
      reads this
    {
      c.Legal() && token in h.trips.bases && cooldown <= h.trips.bases[token].at && Qualifies(paths, was, path, h.trips.bases[token].at, c)
    }

    /** A message of the route protocol, on a path with a fresh reply. */
    method Coordinate(path: Path, m: Message, now: Time) returns (alive: bool, ghost trouble: bool, ghost at: Time)
      requires Valid() && Now(h, now) && h.event.latest == now && h.event.message == Some(m)
      requires h.event.before == h.ledger.gone && h.event.admitted.None? && h.event.opening.None?
      modifies this
      ensures Ends(alive) && Along(old(h), h) && paths == old(paths) && h.log == Tally(old(h.log), m, path, now) && OpensFairly(old(Value()).r, path, now)
      ensures h.event.admitted.Some? ==> h.event.admitted == Some(now)
      ensures m.op in {Committed, Keep, Hold, Abort} && old(About(path, m.token)) == Nothing ==> alive && Unmoved() && previous == old(previous)
      ensures alive && m.op in {Committed, Keep, Hold} && old(About(path, m.token)) == Current ==> Heeds(old(route), route, m.op, now)
      ensures h.event.opening.None? ==> h.ledger.used == old(h.ledger.used)
      ensures alive && h.event.opening.None? ==> Undelayed(old(route), route, old(replacement), replacement, old(rekey), rekey)
      ensures !trouble && m.key == old(psk) && !(m.op == Prepare && old(Retains(m.token, now))) ==>
                Effective(old(Opens(Value(), m, path, at)), old(About(path, m.token)), old(route), path, m, at, alive)
    {
      trouble, at := false, now;
      if m.op == Prepare {
        alive, trouble, at := CoordinatePrepare(path, m, now);
      } else if m.op == Ready || m.op == Commit {
        alive, trouble, at := CoordinateProved(path, m, now);
      } else {
        alive := Handle(path, m, now, now);
      }
    }

    method CoordinatePrepare(path: Path, m: Message, now: Time) returns (alive: bool, ghost trouble: bool, ghost at: Time)
      requires Valid() && Now(h, now) && h.event.latest == now && h.event.message == Some(m) && m.op == Prepare
      requires h.event.before == h.ledger.gone && h.event.admitted.None? && h.event.opening.None?
      modifies this
      ensures Ends(alive) && Along(old(h), h) && paths == old(paths) && h.log == old(h.log) && OpensFairly(old(Value()).r, path, now)
      ensures h.event.admitted.Some? ==> h.event.admitted == Some(now)
      ensures h.event.opening.None? ==> h.ledger.used == old(h.ledger.used)
      ensures alive && h.event.opening.None? ==> Undelayed(old(route), route, old(replacement), replacement, old(rekey), rekey)
      ensures !trouble && m.key == old(psk) && !old(Retains(m.token, now)) ==>
                Effective(old(Opens(Value(), m, path, at)), old(About(path, m.token)), old(route), path, m, at, alive)
    {
      alive, trouble, at := true, false, now;
      ghost var was := Value();
      var refused := Refuses(m, now);
      assert Value().r == was.r && cooldown == was.cooldown && About(path, m.token) == old(About(path, m.token));
      if !refused { alive, trouble, at := CoordinateProved(path, m, now); }
    }

    /** A proposal opens exactly if it can and its path qualifies; anything else takes effect
        on the route it is about. */
    ghost predicate Effective(opens: bool, about: Subject, was: Route, path: Path, m: Message, now: Time, alive: bool)
      reads this
    {
      && (opens ==> alive && c.Legal() && (h.event.opening.Some? <==> Qualifies(paths, was, path, now, c)))
      && (alive && !opens && about == Current ==> Took(was, m, now))
    }

    /** A message that must be proved with the key in use. */
    method CoordinateProved(path: Path, m: Message, now: Time) returns (alive: bool, ghost trouble: bool, ghost at: Time)
      requires Valid() && Now(h, now) && h.event.message == Some(m) && (m.op == Prepare ==> h.event.admitted.Some?)
      requires h.event.before == h.ledger.gone && h.event.opening.None? && (m.op == Prepare || m.op == Ready || m.op == Commit)
      modifies this
      ensures Ends(alive) && Along(old(h), h) && paths == old(paths) && h.log == old(h.log) && OpensFairly(old(Value()).r, path, now)
      ensures h.event.admitted == old(h.event.admitted)
      ensures h.event.opening.None? ==> h.ledger.used == old(h.ledger.used)
      ensures alive && h.event.opening.None? ==> Undelayed(old(route), route, old(replacement), replacement, old(rekey), rekey)
      ensures !trouble && m.key == old(psk) ==> Effective(old(Opens(Value(), m, path, at)), old(About(path, m.token)), old(route), path, m, at, alive)
    {
      var ok, t;
      alive, ok, t := PollFor(path, now);
      trouble, at := !alive || !ok || Value().r != old(Value()).r || cooldown != old(cooldown), t;
      if alive && ok && m.key == psk { alive := OpenOrHandle(path, m, t, now); }
    }

    /** A poll that retires a token leaves the machine busy or without measurements. */
    method PollFor(path: Path, now: Time) returns (alive: bool, ok: bool, t: Time)
      requires Valid() && Now(h, now)
      modifies this
      ensures Ends(alive) && Onward(old(h), h) && paths == old(paths) && now <= t <= h.event.latest
      ensures alive && Free(Value().r, path) && route.tunnel.samples != [] ==>
                h.ledger.gone == old(h.ledger.gone) && Free(old(Value()).r, path) && route == old(route)
      ensures alive && route.phase != Idle ==> route == old(route) && (old(rekey).Some? ==> rekey == old(rekey))
      ensures alive ==> Undelayed(old(route), route, old(replacement), replacement, old(rekey), rekey)
    {
      Shaped();
      ghost var reading;
      alive, ok, reading := PollPSK(now);
      t := Later(now);
      Shaped();
    }

    method OpenOrHandle(path: Path, m: Message, now: Time, receivedAt: Time) returns (alive: bool)
      requires Valid() && Now(h, now) && Now(h, receivedAt) && h.event.message == Some(m) && m.key == psk
      requires h.event.opening.None? && (m.op == Prepare ==> h.event.admitted.Some?)
      modifies this
      ensures Ends(alive) && Along(old(h), h) && paths == old(paths) && h.log == Tally(old(h.log), m, path, now) && h.event.admitted == old(h.event.admitted)
      ensures h.event.opening.Some? ==>
                !leader && h.ledger.gone == old(h.ledger.gone) && Free(old(Value()).r, path) && old(route.tunnel.samples) != [] && now < h.event.clock + MINUTE
      ensures h.event.opening.Some? ==> QualifiedFor(old(route), path, h.event.opening.value)
      ensures old(Opens(Value(), m, path, now)) ==> alive && c.Legal() && (h.event.opening.Some? <==> Qualifies(paths, old(route), path, now, c))
      ensures alive && !old(Opens(Value(), m, path, now)) && old(About(path, m.token)) == Current ==> Took(old(route), m, now)
      ensures h.event.opening.None? ==> h.ledger.used == old(h.ledger.used)
      ensures alive && h.event.opening.None? ==> Undelayed(old(route), route, old(replacement), replacement, old(rekey), rekey) && (old(route.phase) == Idle ==> route.phase == Idle)
    {
      Shaped();
      if Opens(Value(), m, path, now) {
        Open(path, m, now);
        alive := true;
      } else {
        alive := Handle(path, m, now, receivedAt);
      }
    }

    /** The token is still refused, or every token is. */
    ghost predicate Retains(token: Token, now: Time)
      reads this
    {
      now < retiredUntil || (token in retired && now < retired[token])
    }

    /** The retired-token test. While the cache is saturated, every proposal renews
        the refusal. */
    method Refuses(m: Message, now: Time) returns (refused: bool)
      requires Sane() && Now(h, now) && h.event.latest == now && h.event.message == Some(m) && m.op == Prepare
      requires h.event.before == h.ledger.gone
      modifies this`retiredUntil, this`h
      ensures Sane() && h == old(h).(event := old(h.event).(admitted := h.event.admitted))
      ensures refused <==> old(Retains(m.token, now))
      ensures m.token !in h.ledger.gone && old(retiredUntil) <= now ==> !refused
      ensures retiredUntil == if now < old(retiredUntil) then now + RETIRED else old(retiredUntil)
      ensures if refused then h == old(h) else h.event.admitted == Some(now)
    {
      if now < retiredUntil {
        assert Holds(Tokens, Value());
        ExtendKeeps(Value(), now + RETIRED);
        retiredUntil := now + RETIRED;
        return true;
      }
      assert m.token in retired ==> m.token in h.ledger.gone by { assert Holds(Tokens, Value()); }
      if m.token in retired && now < retired[m.token] { return true; }
      AdmitKeeps(Value(), m, now);
      h := Admitted(Value(), now).h;
      return false;
    }

    /** The tunnel's median, if the path is worth a trial, and the path's own. */
    method Qualified(path: Path, now: Time) returns (base: Option<Time>, lan: Time)
      requires c.Legal()
      ensures base == if Qualifies(paths, route, path, now, c) then Median(route.tunnel, now, c) else None
      ensures base.Some? ==> LanMedian(paths, path, now, c) == Some(lan) && route.tunnel.samples != []
    {
      base, lan := None, 0;
      if path !in paths || paths[path].scoped { return; }
      var tunnel := MedianOf(route.tunnel, now, c);
      var own := MedianOf(paths[path].stats, now, c);
      var rival := tunnel;
      if route.phase == Active {
        rival := None;
        if route.selected.Some? && route.selected.value in paths { rival := MedianOf(paths[route.selected.value].stats, now, c); }
      }
      if tunnel.Some? && own.Some? && rival.Some? && Fresh(path, now) && Improves(own.value, rival.value, c) {
        base, lan := tunnel, own.value;
      }
    }

    /** Accept a proposal for a path that measures better here too, or retire it. */
    method Open(path: Path, m: Message, now: Time)
      requires Valid() && Now(h, now) && h.event.message == Some(m) && m.op == Prepare && h.event.admitted.Some?
      requires Free(Value().r, path) && !leader && cooldown <= now && h.event.opening.None?
      modifies this`route, this`replacement, this`retired, this`retiredUntil, this`h
      ensures Valid() && Along(old(h), h) && h.log == old(h.log) && h.event.admitted == old(h.event.admitted)
      ensures h.event.opening.None? ==> h.ledger.used == old(h.ledger.used)
      ensures h.event.opening.Some? ==> h.ledger.gone == old(h.ledger.gone) && Fact(Ready, m.token) in h.past.said
      ensures h.event.opening.None? ==> m.token in h.ledger.gone && route == old(route) && replacement == old(replacement)
      ensures c.Legal() && (h.event.opening.Some? <==> Qualifies(paths, old(route), path, now, c))
      ensures h.event.opening.Some? ==> Taken(old(route), path, m, now)
      ensures h.event.opening.Some? ==> QualifiedFor(old(route), path, h.event.opening.value) && now < h.event.clock + MINUTE && old(route.tunnel.samples) != []
    {
      assert c.Legal() by { assert Holds(Words, Value()); }
      assert Holds(Replies, Value());
      var base, lan := Qualified(path, now);
      if base.Some? {
        OpenProposal(path, m, base.value, now);
      } else {
        Reject(m, now);
      }
    }

    /** What was opened: a trial to come on the path, against the tunnel's median now. */
    ghost predicate Taken(was: Route, path: Path, m: Message, now: Time)
      reads this
      requires c.Legal()
    {
      if was.phase == Active then
        && route == was && replacement.Some? && replacement.value.path == path && replacement.value.token == m.token
        && replacement.value.since == now && Median(was.tunnel, now, c) == Some(replacement.value.baseline)
        && replacement.value.phase == Prepared && replacement.value.remoteRekey == m.rekey
      else
        && route.selected == Some(path) && route.trial == m.token && route.phase == Prepared && route.since == now
        && Median(was.tunnel, now, c) == Some(route.baseline) && route.tunnel == was.tunnel && route.remoteRekey == m.rekey
        && !route.localGood && !route.remoteGood && !route.committed
    }

    method OpenProposal(path: Path, m: Message, base: Time, now: Time)
      requires Valid() && h.event.message == Some(m) && m.op == Prepare && h.event.admitted.Some?
      requires Free(Value().r, path) && !leader && c.Legal() && Median(route.tunnel, now, c) == Some(base)
      modifies this`route, this`replacement, this`h
      ensures Valid() && Along(old(h), h) && h.log == old(h.log) && h.event.admitted == old(h.event.admitted) && h.event.opening == Some(m.token)
      ensures Taken(old(route), path, m, now)
      ensures m.token in h.trips.bases && h.trips.bases[m.token].at == now
      ensures h.ledger.gone == old(h.ledger.gone) && Fact(Ready, m.token) in h.past.said
    {
      OpenKeeps(Value(), m, path, base, now);
      Shaped();
      TakeUp(path, m, base, now);
      Command(Ready, m.token, now);
    }

    method TakeUp(path: Path, m: Message, base: Time, now: Time)
      modifies this`route, this`replacement, this`h
      ensures Value() == Opened(old(Value()), m, path, base, now)
    {
      h := Opened(Value(), m, path, base, now).h;
      if route.phase == Active {
        replacement := Some(Proposal(path, Prepared, m.token, now, base, m.rekey));
      } else {
        route := Chosen(route, path, Prepared, m.token, base, now).(remoteRekey := m.rekey);
      }
    }

    /** A proposal that opens nothing is retired. */
    method Reject(m: Message, now: Time)
      requires Sane() && Now(h, now) && h.event.message == Some(m) && m.op == Prepare
      modifies this`retired, this`retiredUntil, this`h
      ensures Sane() && Onward(old(h), h) && m.token in h.ledger.gone
    {
      assert m.token != NO_TOKEN by { assert Holds(Protocol, Value()); }
      assert m.token in h.ledger.told by { assert Holds(Tokens, Value()); }
      RetireKeeps(Value(), m.token, now);
      Retire(m.token, now);
    }

    /** A message is about a replacement, a saved route or the current one only if both
        its path and its token are. */
    function About(path: Path, token: Token): (x: Subject)
      reads this`replacement, this`previous, this`route
      ensures x == Saved ==> previous.Some?
    {
      if replacement.Some? && replacement.value.path == path && replacement.value.token == token then Pending
      else if previous.Some? && previous.value.selected == Some(path) && previous.value.trial == token then Saved
      else if route.selected == Some(path) && route.trial == token then Current
      else Nothing
    }

    /** A message about the pending replacement, the saved route or the current one. */
    method Handle(path: Path, m: Message, now: Time, receivedAt: Time) returns (alive: bool)
      requires Valid() && Now(h, now) && Now(h, receivedAt) && h.event.message == Some(m)
      requires m.op == Ready || m.op == Commit ==> m.key == psk
      modifies this
      ensures Ends(alive) && Calm(old(h), h) && paths == old(paths) && h.log == Tally(old(h.log), m, path, now)
      ensures match old(About(path, m.token))
        case Pending => alive && m.op == Abort ==> replacement.None? && route == old(route)
        case Saved => alive && Unmoved() && AfterMessage(old(previous).value, previous, m.op, now)
        case Current => alive ==> Took(old(route), m, now)
        case Nothing => alive && Unmoved() && previous == old(previous) && (m.op == Prepare ==> m.token in h.ledger.gone)
      ensures alive ==> Undelayed(old(route), route, old(replacement), replacement, old(rekey), rekey)
    {
      alive := true;
      match About(path, m.token)
      case Pending => alive := HandleReplacement(path, m, now, receivedAt);
      case Saved => HandlePrevious(path, m, now);
      case Current => alive := HandleCurrent(path, m, now, receivedAt);
      case Nothing => HandleStray(path, m, now);
    }

    /** The current route, its replacement, transitions and key are as before. */
    twostate predicate Unmoved()
      reads this
    {
      route == old(route) && replacement == old(replacement) && rekey == old(rekey) && completed == old(completed) && psk == old(psk)
    }

    /** A message about nothing that is there; a proposal is refused. */
    method HandleStray(path: Path, m: Message, now: Time)
      requires Valid() && Now(h, now) && h.event.message == Some(m) && (route.selected != Some(path) || route.trial != m.token)
      modifies this`retired, this`retiredUntil, this`h
      ensures Valid() && Calm(old(h), h) && h.log == Tally(old(h.log), m, path, now) && (m.op == Prepare ==> m.token in h.ledger.gone)
    {
      Count(path, m, now);
      if m.op == Prepare { Reject(m, now); }
    }

    method HandlePrevious(path: Path, m: Message, now: Time)
      requires Valid() && Now(h, now) && h.event.message == Some(m) && previous.Some? && m.token == previous.value.trial && previous.value.selected == Some(path)
      modifies this`previous, this`retired, this`retiredUntil, this`h
      ensures Valid() && Calm(old(h), h) && h.log == Tally(old(h.log), m, path, now)
      ensures AfterMessage(old(previous).value, previous, m.op, now)
    {
      Shaped();
      Count(path, m, now);
      match m.op
      case Abort => DropPrevious(now);
      case Keep => NotePrevious(m, now);
      case Hold => NotePrevious(m, now);
      case _ =>
    }

    method NotePrevious(m: Message, now: Time)
      requires Sane() && h.event.message == Some(m) && previous.Some? && m.token == previous.value.trial
      modifies this`previous
      ensures Sane() && previous == Some(Noted(old(previous).value, m.op, now))
    {
      NotePreviousKeeps(Value(), m, now);
      previous := Some(Noted(previous.value, m.op, now));
    }

    method Note(path: Path, m: Message, now: Time)
      requires Valid() && h.event.message == Some(m) && m.token == route.trial && route.selected == Some(path)
      modifies this`route, this`h
      ensures Valid() && route == Noted(old(route), m.op, now) && h == old(h).(log := Tally(old(h.log), m, path, now))
    {
      NoteKeeps(Value(), m, path, now);
      h := Noting(Value(), m, path, now).h;
      route := Noted(route, m.op, now);
    }

    /** A keep or hold that is not about the current route. */
    method Count(path: Path, m: Message, now: Time)
      requires Valid() && (route.selected != Some(path) || route.trial != m.token)
      modifies this`h
      ensures Valid() && h == old(h).(log := Tally(old(h.log), m, path, now))
    {
      TallyKeeps(Value(), m, path, now);
      h := Tallied(Value(), m, path, now).h;
    }

    method Support(m: Message)
      requires Valid()
      modifies this`route, this`replacement
      ensures Valid() && Value() == Supporting(old(Value()), m.rekey)
    {
      SupportKeeps(Value(), m.rekey);
      if replacement.Some? {
        replacement := Some(replacement.value.(remoteRekey := m.rekey));
      } else {
        route := route.(remoteRekey := m.rekey);
      }
    }

    method HandleReplacement(path: Path, m: Message, now: Time, receivedAt: Time) returns (alive: bool)
      requires Valid() && Now(h, now) && Now(h, receivedAt) && h.event.message == Some(m)
      requires m.op == Ready || m.op == Commit ==> m.key == psk
      requires replacement.Some? && replacement.value.path == path && replacement.value.token == m.token
      modifies this
      ensures Ends(alive) && Calm(old(h), h) && paths == old(paths) && h.log == Tally(old(h.log), m, path, now)
      ensures alive && (m.op == Abort || !Fresh(path, now) || now - old(replacement).value.since >= c.failure) ==>
                replacement.None? && route == old(route)
      ensures alive ==> Undelayed(old(route), route, old(replacement), replacement, old(rekey), rekey)
    {
      Shaped();
      Count(path, m, now);
      if !Fresh(path, now) || now - replacement.value.since >= c.failure {
        CancelReplacement(now);
        return true;
      }
      alive := HandleProposal(path, m, now, receivedAt);
    }

    method HandleProposal(path: Path, m: Message, now: Time, receivedAt: Time) returns (alive: bool)
      requires Valid() && Now(h, now) && Now(h, receivedAt) && h.event.message == Some(m)
      requires m.op == Ready || m.op == Commit ==> m.key == psk
      requires replacement.Some? && replacement.value.path == path && replacement.value.token == m.token
      modifies this
      ensures Ends(alive) && Onward(old(h), h) && paths == old(paths)
      ensures alive && m.op == Abort ==> replacement.None? && route == old(route)
      ensures alive && m.op == Ready && leader ==> replacement.None?
      ensures alive && m.op == Commit && !leader ==>
                replacement.None? && (route.phase == Trial && route.trial == m.token && route.selected == Some(path) ==> route.committed)
      ensures alive ==> Undelayed(old(route), route, old(replacement), replacement, old(rekey), rekey)
    {
      alive := true;
      Shaped();
      var r := replacement.value;
      match m.op
      case Prepare => if r.phase == Prepared { Command(Ready, r.token, now); }
      case Ready =>
        if r.phase == Preparing {
          Support(m);
          ghost var trouble, at;
          alive, trouble, at := Apply(now);
        }
      case Commit =>
        if r.phase == Prepared {
          ghost var trouble, at;
          alive, trouble, at := Apply(now);
          if !alive { return; }
          if route.selected == Some(path) && route.trial == m.token { Confirm(m, receivedAt); }
        }
      case Abort => CancelReplacement(now);
      case _ =>
    }

    /** The leader has committed; tell it so. */
    method Confirm(m: Message, receivedAt: Time)
      requires Valid() && Now(h, receivedAt) && h.event.message == Some(m) && m.op == Commit && m.token == route.trial
      modifies this`route, this`h
      ensures Valid() && Onward(old(h), h)
      ensures route == if old(route).Installed() then old(route).(committed := true) else old(route)
      ensures route.Installed() ==> Fact(Committed, route.trial) in h.past.said
    {
      if route.Installed() {
        Shaped();
        Note(route.selected.value, m, receivedAt);
        var t := Later(receivedAt);
        Command(Committed, route.trial, t);
      }
    }

    /** What a message does to the current route. */
    ghost predicate Took(was: Route, m: Message, now: Time)
      reads this
    {
      match m.op
      case Prepare => route == was && (route.phase == Prepared ==> Fact(Ready, route.trial) in h.past.said)
      case Ready => if was.phase == Preparing then route.phase == Idle || route.phase == Trial else route == was
      case Commit =>
        if was.phase == Prepared then route.phase == Idle || (route.phase == Trial && route.committed && Fact(Committed, m.token) in h.past.said)
        else if was.Installed() then route == was.(committed := true) && Fact(Committed, m.token) in h.past.said
        else route == was
      case Abort => route.phase == Idle || Resumed(now)
      case _ => Heeds(was, route, m.op, now)
    }

    method HandleReady(m: Message, now: Time) returns (alive: bool, ghost trouble: bool, ghost at: Time)
      requires Valid() && Now(h, now) && h.event.message == Some(m) && m.token == route.trial && m.op == Ready && m.key == psk
      requires route.phase == Preparing
      modifies this
      ensures Ends(alive) && Onward(old(h), h) && paths == old(paths)
      ensures alive ==> (route.phase == Idle || route.phase == Trial) && replacement.None? && rekey.None?
      ensures !trouble && old(InTime(at)) ==> alive && route.phase == Trial && route.trial == m.token && route.remoteRekey == m.rekey
    {
      Shaped();
      Support(m);
      alive, trouble, at := Apply(now);
      Shaped();
    }

    method HandleCommit(m: Message, now: Time, receivedAt: Time) returns (alive: bool, ghost trouble: bool, ghost at: Time)
      requires Valid() && Now(h, now) && Now(h, receivedAt) && h.event.message == Some(m) && m.token == route.trial && m.op == Commit && m.key == psk
      modifies this
      ensures Ends(alive) && Onward(old(h), h) && paths == old(paths)
      ensures alive ==> Took(old(route), m, now)
      ensures alive ==> if old(route.phase) == Prepared then replacement.None? && rekey.None?
                        else replacement == old(replacement) && rekey == old(rekey)
      ensures old(route.phase) == Prepared && !trouble && old(InTime(at)) ==> alive && route.phase == Trial && route.trial == m.token
    {
      alive, trouble, at := true, false, now;
      Shaped();
      if route.phase == Prepared {
        alive, trouble, at := Apply(now);
        Shaped();
      }
      if alive && route.Installed() { Confirm(m, receivedAt); }
    }

    method HandleAbort(now: Time) returns (alive: bool)
      requires Valid() && Now(h, now)
      modifies this
      ensures Ends(alive) && Onward(old(h), h) && paths == old(paths)
      ensures alive ==> route.phase == Idle || Resumed(now)
      ensures alive ==> Undelayed(old(route), route, old(replacement), replacement, old(rekey), rekey)
    {
      Shaped();
      ghost var trouble, at;
      alive, trouble, at := Rollback(now);
    }

    method HandleCurrent(path: Path, m: Message, now: Time, receivedAt: Time) returns (alive: bool)
      requires Valid() && Now(h, now) && Now(h, receivedAt) && h.event.message == Some(m) && m.token == route.trial && route.selected == Some(path)
      requires m.op == Ready || m.op == Commit ==> m.key == psk
      modifies this
      ensures Ends(alive) && Calm(old(h), h) && paths == old(paths) && h.log == Tally(old(h.log), m, path, now)
      ensures alive ==> Took(old(route), m, now) && Undelayed(old(route), route, old(replacement), replacement, old(rekey), rekey)
    {
      alive := true;
      Shaped();
      match m.op
      case Prepare => if route.phase == Prepared { Command(Ready, route.trial, now); }
      case Ready =>
        if route.phase == Preparing {
          ghost var trouble, at;
          alive, trouble, at := HandleReady(m, now);
        }
      case Commit => {
        ghost var trouble, at;
        alive, trouble, at := HandleCommit(m, now, receivedAt);
      }
      case Committed => Note(path, m, now);
      case Keep => Note(path, m, now);
      case Hold => Note(path, m, now);
      case Abort => alive := HandleAbort(now);
      case _ =>
    }

    /* ----- key transitions ----- */

    method CoordinateRekey(path: Path, m: Message, now: Time) returns (alive: bool)
      requires Valid() && Now(h, now) && h.event.message == Some(m)
      modifies this
      ensures Ends(alive) && Onward(old(h), h) && paths == old(paths)
      ensures !rekeyOn || !old(route.remoteRekey) || old(route.phase) != Active || old(route.selected) != Some(path) ==> alive && Value() == old(Value())
      ensures alive ==> Undelayed(old(route), route, old(replacement), replacement, old(rekey), rekey)
      ensures alive && old(rekey).Some? && rekeyOn && old(route.remoteRekey) && old(route.selected) == Some(path) ==>
                Continued(old(rekey).value, m, now)
    {
      alive := true;
      Shaped();
      if !rekeyOn || !route.remoteRekey || route.phase != Active || route.selected != Some(path) { return; }
      alive := PollAndRekey(m, now);
    }

    /** The peer still waits for the end of a transition that is complete here. */
    ghost predicate AsksAgain(m: Message, now: Time)
      reads this
    {
      && completed.Some? && now - completed.value.finishedAt < 150 * SECOND
      && m.op == RekeyObserved && m.token == completed.value.token && m.key == completed.value.key
    }

    method PollAndRekey(m: Message, now: Time) returns (alive: bool)
      requires Valid() && Now(h, now) && h.event.message == Some(m)
      modifies this
      ensures Ends(alive) && Onward(old(h), h) && paths == old(paths)
      ensures alive ==> Undelayed(old(route), route, old(replacement), replacement, old(rekey), rekey)
      ensures alive && route.phase != Idle && rekey.None? && AsksAgain(m, now) ==> Fact(RekeyFinished, m.token) in h.past.said
      ensures alive && old(rekey).Some? ==> Continued(old(rekey).value, m, now)
    {
      var ok;
      ghost var reading;
      alive, ok, reading := PollPSK(now);
      if !alive || !ok { return; }
      Shaped();
      if rekey.None? {
        if completed.Some? && now - completed.value.finishedAt < OBSERVATION && m.op == RekeyObserved
           && m.token == completed.value.token && m.key == completed.value.key {
          RekeyCommand(completed.value, RekeyFinished, now);
        }
        return;
      }
      alive := ContinueRekey(m, now);
    }

    method ContinueRekey(m: Message, now: Time) returns (alive: bool)
      requires Valid() && Now(h, now) && h.event.message == Some(m) && rekey.Some?
      modifies this
      ensures Ends(alive) && Onward(old(h), h) && paths == old(paths)
      ensures alive ==> Undelayed(old(route), route, old(replacement), replacement, old(rekey), rekey)
      ensures alive ==> Continued(old(rekey).value, m, now)
    {
      alive := true;
      if m.key != rekey.value.key { return; }
      if rekey.value.stage != Observing && now - rekey.value.since >= c.failure {
        alive := Restore(now);
        return;
      }
      if m.op == RekeyOffer && !leader && rekey.value.stage == Waiting { AcceptOffer(m); }
      if m.token == rekey.value.token { alive := HandleRekey(m, now); }
    }

    method AcceptOffer(m: Message)
      requires Valid() && rekey.Some? && rekey.value.stage == Waiting
      modifies this`rekey
      ensures Valid() && rekey == Some(old(rekey).value.(stage := Confirmed, token := m.token))
    {
      assert Holds(Protocol, Value());
      var x := rekey.value.(stage := Confirmed, token := m.token);
      StartRekeyKeeps(Value(), x);
      rekey := Some(x);
    }

    /** A waiting follower hears the leader's offer of its own key. */
    predicate Offered(x: Transition, m: Message) {
      m.op == RekeyOffer && !leader && x.stage == Waiting && x.key == m.key
    }

    /** Where a key transition stands after a message, unless the route was given up. */
    ghost predicate Continued(was: Transition, m: Message, now: Time)
      reads this
    {
      route.phase != Idle ==>
        if m.key != was.key then rekey == Some(was)
        else if Offered(was, m) then rekey == Some(was.(stage := Confirmed, token := m.token)) && Fact(RekeyReady, m.token) in h.past.said
        else if m.token == was.token then TookRekey(was, m, now)
        else rekey == Some(was)
    }

    /** What a message does to a key transition that it does not end. */
    ghost predicate TookRekey(was: Transition, m: Message, now: Time)
      reads this
    {
      rekey.Some? && match m.op
      case RekeyReady =>
        if leader && was.stage == Offering then Switched(was) && Fact(RekeyCommit, m.token) in h.past.said else rekey == Some(was)
      case RekeyCommit =>
        if !leader && (was.stage == Confirmed || was.stage == Observing)
        then rekey.value.stage == Observing && rekey.value.remoteApplied && psk == was.key && Fact(RekeyApplied, m.token) in h.past.said
        else rekey == Some(was)
      case RekeyApplied => rekey == Some(if was.stage == Observing then was.(remoteApplied := true) else was)
      case RekeyObserved => rekey == Some(if was.stage == Observing then was.(remoteApplied := true, remoteObserved := Some(now)) else was)
      case RekeyFinished => rekey == Some(if was.stage == Observing then was.(remoteApplied := true, remoteObserved := Some(now)) else was)
      case _ => rekey == Some(was)
    }

    method HandleRekey(m: Message, now: Time) returns (alive: bool)
      requires Valid() && Now(h, now) && h.event.message == Some(m)
      requires rekey.Some? && m.token == rekey.value.token && m.key == rekey.value.key
      modifies this
      ensures Ends(alive) && Onward(old(h), h) && paths == old(paths)
      ensures alive && route.phase != Idle ==> TookRekey(old(rekey).value, m, now)
      ensures alive && m.op == RekeyOffer && !leader && old(rekey).value.stage == Confirmed ==>
                route.phase != Idle && rekey == old(rekey) && Fact(RekeyReady, m.token) in h.past.said
      ensures alive ==> Undelayed(old(route), route, old(replacement), replacement, old(rekey), rekey)
    {
      alive := true;
      Shaped();
      var x := rekey.value;
      match m.op
      case RekeyOffer => if !leader && x.stage == Confirmed { RekeyCommand(x, RekeyReady, now); }
      case RekeyReady =>
        if leader && x.stage == Offering {
          RekeyCommand(x, RekeyCommit, now);
          ghost var trouble;
          alive, trouble := ApplyRekey(now);
        }
      case RekeyCommit => if !leader { alive := HandleRekeyCommit(m, now); }
      case RekeyApplied => if x.stage == Observing { NoteRekey(m, now); }
      case RekeyObserved => if x.stage == Observing { NoteRekey(m, now); }
      case RekeyFinished => if x.stage == Observing { NoteRekey(m, now); }
      case _ =>
    }

    method HandleRekeyCommit(m: Message, now: Time) returns (alive: bool)
      requires Valid() && Now(h, now) && h.event.message == Some(m) && m.op == RekeyCommit && !leader
      requires rekey.Some? && m.token == rekey.value.token && m.key == rekey.value.key
      modifies this
      ensures Ends(alive) && Onward(old(h), h) && paths == old(paths)
      ensures alive && route.phase != Idle ==> TookRekey(old(rekey).value, m, now) && route == old(route) && replacement == old(replacement)
      ensures alive && route.phase != Idle ==>
                rekey.value.since == old(rekey).value.since && rekey.value.key == old(rekey).value.key
                && (old(rekey).value.stage == Observing ==> rekey.value.appliedAt == old(rekey).value.appliedAt)
    {
      alive := true;
      Shaped();
      if rekey.value.stage == Confirmed {
        ghost var trouble;
        alive, trouble := ApplyRekey(now);
        if !alive || rekey.None? { return; }
      }
      assert rekey.value.stage == Observing ==> psk == rekey.value.key by { assert Holds(Protocol, Value()); }
      if rekey.value.stage == Observing {
        NoteRekey(m, now);
        RekeyCommand(rekey.value, RekeyApplied, now);
      }
    }

    method NoteRekey(m: Message, now: Time)
      requires Valid() && h.event.message == Some(m) && rekey.Some? && rekey.value.stage == Observing
      requires m.token == rekey.value.token && m.key == rekey.value.key
      modifies this`rekey
      ensures Valid() && rekey == Some(NotedRekey(old(rekey).value, m.op, now))
    {
      NoteRekeyKeeps(Value(), m, now);
      rekey := Some(NotedRekey(rekey.value, m.op, now));
    }

    /** Install the new key in place. Whatever goes wrong, the stable route is restored. */
    method ApplyRekey(now: Time) returns (alive: bool, ghost trouble: bool)
      requires Valid() && Now(h, now) && rekey.Some? && h.event.message.Some?
      requires var m := h.event.message.value;
        m == Message(if leader then RekeyReady else RekeyCommit, rekey.value.token, rekey.value.key, m.rekey)
      modifies this
      ensures Ends(alive) && Onward(old(h), h) && paths == old(paths)
      ensures alive && route.phase != Idle ==> Switched(old(rekey).value) && route == old(route) && replacement == old(replacement)
      ensures alive && route.phase == Idle ==> rekey.None?
      ensures !trouble ==> alive && Switched(old(rekey).value) && route == old(route)
    {
      trouble := false;
      Shaped();
      var ok := Chance();
      if !ok {
        alive, trouble := false, true;
        return;
      }
      var t := Later(now);
      ghost var reading;
      alive, ok, reading := PollPSK(t);
      Shaped();
      trouble := !alive || !ok || rekey != old(rekey);
      if !alive || !ok || rekey.None? { return; }
      ghost var refused;
      alive, refused := SwitchOrRestore(now);
      trouble := trouble || refused;
    }

    method SwitchOrRestore(now: Time) returns (alive: bool, ghost refused: bool)
      requires Valid() && Now(h, now) && rekey.Some? && h.event.message.Some?
      requires var m := h.event.message.value;
        m == Message(if leader then RekeyReady else RekeyCommit, rekey.value.token, rekey.value.key, m.rekey)
      modifies this
      ensures Ends(alive) && Onward(old(h), h) && paths == old(paths)
      ensures alive && route.phase != Idle ==> Switched(old(rekey).value) && route == old(route) && replacement == old(replacement)
      ensures alive && route.phase == Idle ==> rekey.None?
      ensures !refused ==> alive && Switched(old(rekey).value) && route == old(route)
    {
      Shaped();
      alive, refused := true, false;
      var able := Chance();
      var handshake := Handshake();
      refused := !able || handshake.None?;
      if able && handshake.Some? {
        var ok := TrySwitch(handshake.value, now);
        refused := !ok;
        if ok { return; }
      }
      alive := Restore(now);
    }

    /** The transition's key is installed, and the transition otherwise the same. */
    ghost predicate Switched(x: Transition)
      reads this
    {
      rekey.Some? && rekey.value == x.(stage := Observing, appliedAt := rekey.value.appliedAt, handshake := rekey.value.handshake) && psk == x.key
    }

    method TrySwitch(handshake: Time, now: Time) returns (ok: bool)
      requires Valid() && Now(h, now) && rekey.Some? && h.event.message.Some?
      requires var m := h.event.message.value;
        m == Message(if leader then RekeyReady else RekeyCommit, rekey.value.token, rekey.value.key, m.rekey)
      modifies this`mismatch, this`psk, this`rekey, this`managed, this`h
      ensures Ends(ok) && Onward(old(h), h)
      ensures ok ==> Switched(old(rekey).value) && now <= rekey.value.appliedAt && rekey.value.handshake == handshake
    {
      Shaped();
      ok := ControlRekey(psk, rekey.value.key);
      if ok {
        var t := Later(now);
        RekeyKeeps(Value(), h.event.message.value, t, handshake);
        SwitchKey(t, handshake);
      }
    }

    method SwitchKey(appliedAt: Time, handshake: Time)
      requires rekey.Some?
      modifies this`psk, this`rekey, this`h
      ensures Value() == Rekeyed(old(Value()), appliedAt, handshake)
    {
      var x := rekey.value;
      h := Rekeyed(Value(), appliedAt, handshake).h;
      psk, rekey := x.key, Some(x.(stage := Observing, appliedAt := appliedAt, handshake := handshake));
    }

    /** A key transition within its deadlines. */
    ghost predicate RekeyInTime(now: Time)
      reads this
    {
      rekey.Some? &&
        if rekey.value.stage != Observing then now - rekey.value.since < c.failure
        else now - rekey.value.appliedAt < OBSERVATION && route.lastTunnel.Some? && now - route.lastTunnel.value < c.failure
    }

    method AdvanceRekey(now: Time) returns (alive: bool)
      requires Valid() && Now(h, now) && rekey.Some?
      modifies this
      ensures Ends(alive) && Onward(old(h), h) && paths == old(paths)
      ensures alive && route.phase != Idle ==> route == old(route).(remoteAt := route.remoteAt) && replacement.None?
      ensures alive && route.phase != Idle && rekey.None? ==> route.lastTunnel.Some? && now - route.lastTunnel.value < c.failure
      ensures alive && route.phase != Idle && rekey.None? ==>
                var x := old(rekey).value;
                x.stage == Observing && x.remoteObserved.Some? && now - x.remoteObserved.value < c.failure && completed == Some(x.(finishedAt := now)) && cooldown >= now + OBSERVATION && route.remoteAt == now
      ensures alive && rekey.Some? ==> rekey == old(rekey) && RekeyInTime(now)
      ensures alive && rekey.Some? && rekey.value.stage == Offering ==> Fact(RekeyOffer, rekey.value.token) in h.past.said
      ensures alive ==> (route.phase == Idle <==> !old(RekeyInTime(now)))
    {
      Shaped();
      if rekey.value.stage == Observing {
        ghost var seen;
        alive, seen := Observe(now);
        return;
      }
      alive := true;
      var x := rekey.value;
      if now - x.since >= c.failure {
        alive := Restore(now);
      } else if x.stage == Offering {
        RekeyCommand(x, RekeyOffer, now);
      } else if x.stage == Confirmed {
        RekeyCommand(x, RekeyReady, now);
      }
    }

    /** Both nodes have seen a handshake after the switch, the peer recently. */
    ghost predicate Observed(x: Transition, seen: Option<Time>, now: Time) {
      && seen.Some? && x.handshake < seen.value && x.appliedAt < seen.value <= now
      && x.remoteObserved.Some? && now - x.remoteObserved.value < c.failure
    }

    /** Wait for a handshake after the switch, here and at the peer. */
    method Observe(now: Time) returns (alive: bool, ghost seen: Option<Time>)
      requires Valid() && Now(h, now) && rekey.Some? && rekey.value.stage == Observing
      modifies this
      ensures Ends(alive) && Onward(old(h), h) && paths == old(paths)
      ensures alive && route.phase != Idle ==> route == old(route).(remoteAt := route.remoteAt) && replacement == old(replacement)
      ensures alive && route.phase != Idle ==> route.lastTunnel.Some? && now - route.lastTunnel.value < c.failure
      ensures alive && rekey.Some? ==> rekey == old(rekey) && RekeyInTime(now)
      ensures alive && route.phase != Idle && rekey.None? ==>
                var x := old(rekey).value;
                x.remoteObserved.Some? && now - x.remoteObserved.value < c.failure && completed == Some(x.(finishedAt := now)) && cooldown >= now + OBSERVATION && route.remoteAt == now
      ensures alive && old(RekeyInTime(now)) ==> route.phase != Idle && (rekey.None? <==> Observed(old(rekey).value, seen, now))
      ensures alive && !old(RekeyInTime(now)) ==> route.phase == Idle
    {
      alive, seen := true, None;
      Shaped();
      var x := rekey.value;
      if now - x.appliedAt >= OBSERVATION || route.lastTunnel.None? || now - route.lastTunnel.value >= c.failure {
        alive := Restore(now);
        return;
      }
      alive, seen := AwaitHandshake(now);
    }

    method AwaitHandshake(now: Time) returns (alive: bool, ghost seen: Option<Time>)
      requires Valid() && Now(h, now) && rekey.Some? && rekey.value.stage == Observing && route.phase != Idle
      modifies this`rekey, this`completed, this`cooldown, this`route, this`h
      ensures Valid() && Onward(old(h), h) && (alive <==> seen.Some?)
      ensures route == old(route).(remoteAt := route.remoteAt)
      ensures alive ==> (rekey.None? <==> Observed(old(rekey).value, seen, now))
      ensures rekey.Some? ==> rekey == old(rekey)
      ensures rekey.None? ==> completed == Some(old(rekey).value.(finishedAt := now)) && cooldown >= now + OBSERVATION && route.remoteAt == now
    {
      var x := rekey.value;
      Remind(now);
      var handshake := Handshake();
      alive, seen := handshake.Some?, handshake;
      if handshake.Some? && x.handshake < handshake.value && x.appliedAt < handshake.value <= now { Notice(now); }
    }

    /** A handshake after the switch was seen here; was it at the peer? */
    method Notice(now: Time)
      requires Valid() && rekey.Some? && rekey.value.stage == Observing
      modifies this`rekey, this`completed, this`cooldown, this`route, this`h
      ensures Valid() && Onward(old(h), h) && Fact(RekeyObserved, old(rekey).value.token) in h.past.said
      ensures if old(rekey).value.remoteObserved.Some? && now - old(rekey).value.remoteObserved.value < c.failure
              then rekey.None? && completed == Some(old(rekey).value.(finishedAt := now)) && route == old(route).(remoteAt := now) && cooldown >= now + OBSERVATION
              else rekey == old(rekey) && route == old(route) && completed == old(completed)
    {
      var x := rekey.value;
      TellRekey(RekeyObserved, now);
      if x.remoteObserved.Some? && now - x.remoteObserved.value < c.failure { Complete(now); }
    }

    /** The leader repeats its commit until the peer has applied it. */
    method Remind(now: Time)
      requires Valid() && rekey.Some? && rekey.value.stage == Observing
      modifies this`h
      ensures Valid() && Onward(old(h), h)
      ensures leader && !rekey.value.remoteApplied ==> Fact(RekeyCommit, rekey.value.token) in h.past.said
    {
      if !rekey.value.remoteApplied && leader { TellRekey(RekeyCommit, now); }
    }

    method TellRekey(op: Op, now: Time)
      requires Valid() && rekey.Some? && RekeyGuard(Value().r, op, rekey.value)
      modifies this`h
      ensures Valid() && Onward(old(h), h) && Fact(op, rekey.value.token) in h.past.said
    {
      RekeyCommand(rekey.value, op, now);
    }

    method Complete(now: Time)
      requires Valid() && rekey.Some? && rekey.value.stage == Observing && rekey.value.remoteObserved.Some?
      modifies this`rekey, this`completed, this`cooldown, this`route, this`h
      ensures Valid() && Onward(old(h), h) && rekey.None? && completed == Some(old(rekey).value.(finishedAt := now))
      ensures route == old(route).(remoteAt := now) && cooldown >= now + OBSERVATION
    {
      Finish(now);
    }

    method Finish(now: Time)
      requires Valid() && rekey.Some? && rekey.value.stage == Observing && rekey.value.remoteObserved.Some?
      modifies this`rekey, this`completed, this`cooldown, this`route, this`h
      ensures Valid() && Value() == Finished(old(Value()), now)
    {
      FinishKeeps(Value(), now);
      h := Finished(Value(), now).h;
      if now + OBSERVATION > cooldown { cooldown := now + OBSERVATION; }
      completed, route, rekey := Some(rekey.value.(finishedAt := now)), route.(remoteAt := now), None;
    }

    /* ----- the timer ----- */

    /** The lease of a route: health and deadlines, as of the given time. */
    ghost predicate Leased(now: Time)
      reads this
    {
      route.phase != Idle ==>
        && route.selected.Some? && Fresh(route.selected.value, now)
        && (route.Installed() && rekey.None? ==> now - route.Last() < c.failure)
        && (!route.Installed() ==> now - route.since < c.failure)
        && (rekey.Some? ==> RekeyInTime(now))
        && (route.phase == Trial ==> now - route.since <= MAX_TRIAL)
        && (replacement.Some? ==> Fresh(replacement.value.path, now) && now - replacement.value.since < c.failure)
    }

    /** Pending proposals are from before this event. */
    ghost predicate Early()
      reads this
    {
      && (route.phase == Preparing ==> route.since <= h.event.clock)
      && (replacement.Some? ==> replacement.value.phase == Preparing ==> replacement.value.since <= h.event.clock)
    }

    /** A route that has to be kept: its path answers, the tunnel answers, no deadline has
        passed and its trial has not failed. */
    ghost predicate Healthy(now: Time)
      reads this
    {
      && route.selected.Some? && Fresh(route.selected.value, now)
      && (if rekey.Some? then RekeyInTime(now)
          else if route.Installed() then now - route.Last() < c.failure && (route.phase == Trial ==> !TrialFails(now))
          else now - route.since < c.failure)
    }

    /** The same route on the same path, at most made active. */
    ghost predicate Stays(was: Route)
      reads this
    {
      && route.selected == was.selected && route.trial == was.trial && route.since == was.since
      && (route.phase == was.phase || (was.phase == Trial && route.phase == Active))
    }

    method Advance(now: Time) returns (alive: bool)
      requires Valid() && Now(h, now) && Early() && route.phase != Idle
      modifies this
      ensures Ends(alive) && Calm(old(h), h) && paths == old(paths)
      ensures alive ==> Leased(now)
      ensures alive ==> if old(Healthy(now)) then Stays(old(route)) else route.phase == Idle || Resumed(now)
    {
      assert c.failure > 0 by { assert Holds(Words, Value()); }
      Shaped();
      if !Fresh(route.selected.value, now) {
        ghost var trouble, at;
        alive, trouble, at := Rollback(now);
      } else if rekey.Some? {
        alive := AdvanceRekey(now);
      } else {
        alive := AdvanceHealthy(now);
      }
    }

    method AdvanceHealthy(now: Time) returns (alive: bool)
      requires Valid() && Now(h, now) && Early() && route.selected.Some? && Fresh(route.selected.value, now) && rekey.None?
      modifies this
      ensures Ends(alive) && Calm(old(h), h) && paths == old(paths)
      ensures alive ==> Leased(now)
      ensures alive ==> if old(Healthy(now)) then Stays(old(route)) else route.phase == Idle || Resumed(now)
    {
      assert c.failure > 0 by { assert Holds(Words, Value()); }
      Shaped();
      if route.Installed() {
        alive := AdvanceDirect(now);
      } else {
        alive := AdvancePending(now);
      }
    }

    method AdvanceDirect(now: Time) returns (alive: bool)
      requires Valid() && Now(h, now) && Early() && route.selected.Some? && Fresh(route.selected.value, now) && rekey.None? && route.Installed()
      requires c.failure > 0
      modifies this
      ensures Ends(alive) && Calm(old(h), h) && paths == old(paths)
      ensures alive ==> Leased(now)
      ensures alive ==> if old(Healthy(now)) then Stays(old(route)) else route.phase == Idle || Resumed(now)
    {
      Shaped();
      var over;
      alive, over := AdvanceInstalled(now);
      if !over && replacement.Some? { AdvanceReplacement(now); }
    }

    method AdvancePending(now: Time) returns (alive: bool)
      requires Valid() && Now(h, now) && Early() && (route.phase == Preparing || route.phase == Prepared)
      modifies this
      ensures Ends(alive) && Onward(old(h), h) && paths == old(paths)
      ensures alive && route.phase != Idle ==> Unmoved() && now - route.since < c.failure
      ensures alive ==> (route.phase == Idle <==> old(now - route.since >= c.failure))
      ensures alive && route.phase != Idle ==> Fact(if leader then Prepare else Ready, route.trial) in h.past.said
    {
      Shaped();
      if now - route.since >= c.failure {
        alive := Restore(now);
        return;
      }
      Command(if route.phase == Preparing then Prepare else Ready, route.trial, now);
      alive := true;
    }

    method AdvanceReplacement(now: Time)
      requires Valid() && Now(h, now) && Early() && replacement.Some?
      modifies this`replacement, this`retired, this`retiredUntil, this`cooldown, this`h
      ensures Valid() && Onward(old(h), h)
      ensures replacement.None? || (replacement == old(replacement) && Fresh(replacement.value.path, now) && now - replacement.value.since < c.failure)
      ensures replacement.Some? ==> Fact(if leader then Prepare else Ready, replacement.value.token) in h.past.said
    {
      var r := replacement.value;
      if !Fresh(r.path, now) || now - r.since >= c.failure {
        CancelReplacement(now);
      } else {
        Shaped();
        Command(if r.phase == Preparing then Prepare else Ready, r.token, now);
      }
    }

    /** The route is unchanged but for its grade and for becoming active. */
    ghost predicate SameRoute(was: Route, now: Time)
      reads this
    {
      && route == was.(localGood := route.localGood, phase := route.phase) && route.Installed() && (was.phase == Active ==> route.phase == Active)
      && (route.phase == Trial ==> now - route.since <= MAX_TRIAL)
    }

    /** `over` says that the route was rolled back. */
    method AdvanceInstalled(now: Time) returns (alive: bool, over: bool)
      requires Valid() && Now(h, now) && rekey.None? && route.Installed()
      modifies this
      ensures Ends(alive) && Calm(old(h), h) && paths == old(paths)
      ensures over <==> old(now - route.Last() >= c.failure || (route.phase == Trial && TrialFails(now)))
      ensures over && alive && route.phase != Idle ==> Resumed(now)
      ensures !over ==> alive && SameRoute(old(route), now) && now - route.Last() < c.failure && replacement == old(replacement) && rekey.None?
      ensures !over ==> Fact(if route.localGood then Keep else Hold, route.trial) in h.past.said
      ensures !over && !route.committed && leader ==> Fact(Commit, route.trial) in h.past.said
    {
      if now - route.Last() >= c.failure {
        ghost var trouble, at;
        alive, trouble, at := Rollback(now);
        return alive, true;
      }
      if !route.committed && leader { Recommit(now); }
      if route.phase == Trial {
        alive, over := AdvanceTrial(now);
        if over { return; }
      }
      Report(now);
      return true, false;
    }

    method Recommit(now: Time)
      requires Valid() && route.Installed() && !route.committed
      modifies this`h
      ensures Valid() && Onward(old(h), h) && Fact(Commit, route.trial) in h.past.said
    {
      assert Holds(Protocol, Value());
      Command(Commit, route.trial, now);
    }

    method Report(now: Time)
      requires Valid()
      modifies this`h
      ensures Valid() && Onward(old(h), h) && Fact(if route.localGood then Keep else Hold, route.trial) in h.past.said
    {
      Command(if route.localGood then Keep else Hold, route.trial, now);
    }

    /** A trial fails if it measures no improvement, if it measures too little for a window
        or if it takes too long. */
    ghost predicate TrialFails(now: Time)
      reads this
    {
      c.Legal() ==>
        || (Median(route.tunnel, now, c).Some? && !BetterNow(route, now, c))
        || (Median(route.tunnel, now, c).None? && now - route.since >= c.window)
        || now - route.since > 2 * MINUTE
    }

    method AdvanceTrial(now: Time) returns (alive: bool, over: bool)
      requires Valid() && Now(h, now) && route.phase == Trial
      modifies this
      ensures Ends(alive) && Calm(old(h), h) && paths == old(paths)
      ensures if !over && route.phase == Active then route.selected.Some? && h.log == old(h.log) + [Made(route.trial, route.selected.value, now)] else h.log == old(h.log)
      ensures over <==> old(TrialFails(now))
      ensures over && alive && route.phase != Idle ==> Resumed(now)
      ensures !over ==> alive && SameRoute(old(route), now) && replacement == old(replacement) && rekey == old(rekey)
      ensures !over ==> (route.phase == Active <==> route.localGood && route.remoteGood && now - route.remoteAt < c.failure && route.committed)
      ensures !over ==> c.Legal() && (route.localGood <==> BetterNow(route, now, c))
    {
      over := Assess(now);
      if over {
        ghost var trouble, at;
        alive, trouble, at := Rollback(now);
        return;
      }
      TryActivate(now);
      alive := true;
    }

    /** Grade a trial, and say whether it has failed. */
    method Assess(now: Time) returns (fails: bool)
      requires Valid() && route.phase == Trial
      modifies this`route, this`h
      ensures Valid() && Onward(old(h), h) && c.Legal() && route == old(route).(localGood := BetterNow(old(route), now, c))
      ensures fails <==> old(TrialFails(now))
    {
      assert c.Legal() by { assert Holds(Words, Value()); }
      var m := MedianOf(route.tunnel, now, c);
      var better := m.Some? && Improves(m.value, route.baseline, c);
      Grade(if better then m else None, now);
      fails := (m.Some? && !better) || (m.None? && now - route.since >= c.window) || now - route.since > MAX_TRIAL;
    }

    method TryActivate(now: Time)
      requires Valid() && Now(h, now) && route.phase == Trial
      modifies this`route, this`cooldown, this`previous, this`retired, this`retiredUntil, this`h
      ensures Valid() && Calm(old(h), h) && route == old(route).(phase := route.phase) && (route.phase == Trial || route.phase == Active)
      ensures route.selected.Some? && h.log == if route.phase == Active then old(h.log) + [Made(route.trial, route.selected.value, now)] else old(h.log)
      ensures route.phase == Active <==> route.localGood && route.remoteGood && now - route.remoteAt < c.failure && route.committed
    {
      Shaped();
      if route.localGood && route.remoteGood && now - route.remoteAt < c.failure && route.committed {
        DropPrevious(now);
        Activate(now);
      }
    }

    method Grade(rtt: Option<Time>, now: Time)
      requires Valid() && route.phase == Trial && c.Legal()
      requires rtt.Some? ==> Median(route.tunnel, now, c) == rtt && Improves(rtt.value, route.baseline, c)
      modifies this`route, this`h
      ensures Valid() && Onward(old(h), h) && route == old(route).(localGood := rtt.Some?)
    {
      GradeKeeps(Value(), rtt, now);
      h := Graded(Value(), rtt, now).h;
      route := route.(localGood := rtt.Some?);
    }

    method Activate(now: Time)
      requires Valid() && route.phase == Trial && previous.None? && route.localGood && route.remoteGood && route.committed
      requires route.selected.Some? && now - route.remoteAt < c.failure
      modifies this`route, this`cooldown, this`h
      ensures Valid() && Calm(old(h), h) && route == old(route).(phase := Active) && h.log == old(h.log) + [Made(route.trial, route.selected.value, now)]
    {
      ActivateKeeps(Value(), now);
      h := Activated(Value(), now).h;
      route, cooldown := route.(phase := Active), now + c.cooldown;
    }

    /** The leader proposes the best listed path that qualifies. Tokens never repeat. */
    method Propose(token: Token, now: Time)
      requires Valid() && Now(h, now) && token != NO_TOKEN && token !in h.ledger.proposed
      requires route.phase == Idle || route.phase == Active
      modifies this`route, this`replacement, this`h
      ensures Valid() && Ticked(old(h), h)
      ensures old(Leased(now)) ==> Leased(now)
      ensures Value() == old(Value()) || (leader && old(rekey).None? && old(replacement).None? && cooldown <= now && Fact(Prepare, token) in h.past.said)
      ensures old(MustPropose(now)) ==> Fact(Prepare, token) in h.past.said && exists path :: old(Best(path, now)) && Proposes(path, token)
      ensures Value() == old(Value()) || (c.Legal() && exists path :: old(Best(path, now)) && Proposes(path, token))
    {
      if rekey.Some? || replacement.Some? || now < cooldown || !leader { return; }
      assert c.Legal() by { assert Holds(Words, Value()); }
      var best, base := BestPath(now);
      if best.Some? { ProposePath(best.value, token, base, now); }
    }

    /** A free leader past its cooldown, and a listed path worth a trial. */
    ghost predicate MustPropose(now: Time)
      reads this
    {
      && leader && rekey.None? && replacement.None? && cooldown <= now
      && c.Legal() && exists x :: x in known && route.selected != Some(x) && Qualifies(paths, route, x, now, c)
    }

    /** The path of the token is the given one. */
    ghost predicate Proposes(path: Path, token: Token)
      reads this
    {
      if replacement.Some? then replacement.value.path == path && replacement.value.token == token
      else route.selected == Some(path) && route.trial == token
    }

    /** The path qualifies, and no listed path that does has shorter round trips. */
    ghost predicate Best(path: Path, now: Time)
      reads this
    {
      && c.Legal() && path in known && route.selected != Some(path) && Qualifies(paths, route, path, now, c)
      && forall x :: x in known && route.selected != Some(x) && Qualifies(paths, route, x, now, c) ==>
           LanMedian(paths, path, now, c).value <= LanMedian(paths, x, now, c).value
    }

    method BestPath(now: Time) returns (best: Option<Path>, base: Time)
      requires c.Legal()
      ensures best.Some? ==> Best(best.value, now) && Median(route.tunnel, now, c) == Some(base)
      ensures best.None? ==> forall x :: x in known && route.selected != Some(x) ==> !Qualifies(paths, route, x, now, c)
    {
      best, base := None, 0;
      var least, todo := 0, known;
      while todo != {}
        invariant todo <= known
        invariant best.Some? ==>
          && best.value in known && route.selected != best && Qualifies(paths, route, best.value, now, c)
          && Median(route.tunnel, now, c) == Some(base) && LanMedian(paths, best.value, now, c) == Some(least)
        invariant forall x :: x in known - todo && route.selected != Some(x) && Qualifies(paths, route, x, now, c) ==>
                    best.Some? && least <= LanMedian(paths, x, now, c).value
        decreases todo
      {
        var x :| x in todo;
        todo := todo - {x};
        if route.selected != Some(x) {
          var tunnel, rtt := Qualified(x, now);
          if tunnel.Some? && (best.None? || rtt < least) {
            best, base, least := Some(x), tunnel.value, rtt;
          }
        }
      }
    }

    method ProposePath(path: Path, token: Token, base: Time, now: Time)
      requires Valid() && Now(h, now) && token != NO_TOKEN && token !in h.ledger.proposed
      requires leader && Free(Value().r, path) && Fresh(path, now) && c.Legal() && Median(route.tunnel, now, c) == Some(base)
      modifies this`route, this`replacement, this`h
      ensures Valid() && Ticked(old(h), h) && Fact(Prepare, token) in h.past.said && Proposes(path, token)
      ensures old(Leased(now)) ==> Leased(now)
    {
      Offer(path, token, base, now);
      Command(Prepare, token, now);
    }

    method Offer(path: Path, token: Token, base: Time, now: Time)
      requires Valid() && Now(h, now) && token != NO_TOKEN && token !in h.ledger.proposed
      requires leader && Free(Value().r, path) && Fresh(path, now) && c.Legal() && Median(route.tunnel, now, c) == Some(base)
      modifies this`route, this`replacement, this`h
      ensures Valid() && Ticked(old(h), h) && Proposes(path, token) && SayGuard(c, Value().r, Prepare, token, now)
      ensures old(Leased(now)) ==> Leased(now)
    {
      ProposeKeeps(Value(), path, token, base, now);
      Record(path, token, base, now);
    }

    method Record(path: Path, token: Token, base: Time, now: Time)
      modifies this`route, this`replacement, this`h
      ensures Value() == Proposed(old(Value()), path, token, base, now)
      ensures route == old(route) || replacement == old(replacement)
    {
      h := Proposed(Value(), path, token, base, now).h;
      if route.phase == Active {
        replacement := Some(Proposal(path, Preparing, token, now, base, false));
      } else {
        route := Chosen(route, path, Preparing, token, base, now);
      }
    }

    /** One tick. A route that outlives it holds its lease. */
    method Tick(token: Token, now: Time) returns (alive: bool, at: Time)
      requires Valid() && h.event.latest <= now && token != NO_TOKEN && token !in h.ledger.proposed
      modifies this
      ensures Ends(alive) && Ticked(old(h), h) && paths == old(paths)
      ensures now <= at && (alive ==> Leased(at))
    {
      var ok;
      alive, ok, at := BeginTick(now);
      if !alive { return; }
      if route.phase != Idle {
        alive := Advance(at);
        if !alive || route.phase != Active { return; }
      }
      if ok { Propose(token, at); }
    }

    /** Look at the key, and drop what is outdated. */
    method BeginTick(now: Time) returns (alive: bool, ok: bool, at: Time)
      requires Valid() && h.event.latest <= now
      modifies this
      ensures Ends(alive) && Ticked(old(h), h) && paths == old(paths) && h.ledger.proposed == old(h.ledger.proposed)
      ensures now <= at && (alive ==> Now(h, at)) && (alive && route.phase != Idle ==> Early())
    {
      at, ok := now, false;
      alive := Chance();
      if !alive { return; }
      Wake(now);
      var t := Later(now);
      ghost var reading;
      alive, ok, reading := PollPSK(t);
      if !alive { return; }
      PruneProbes(now);
      PrunePaths(now);
      at := Later(now);
    }

    method Wake(now: Time)
      requires Sane() && h.event.latest <= now
      modifies this`h
      ensures Sane() && h == Woken(old(Value()), now).h && Early()
    {
      assert Holds(Tokens, Value());
      WakeKeeps(Value(), now);
      h := Woken(Value(), now).h;
    }

    method PruneProbes(now: Time)
      requires Sane()
      modifies this`pending
      ensures Sane() && pending == Unanswered(old(pending), now, c.failure)
      ensures forall t :: t in pending <==> t in old(pending) && now - old(pending)[t].at <= c.failure
    {
      PruneKeeps(Value(), now);
      var todo := pending.Keys;
      while todo != {}
        invariant todo <= old(pending).Keys
        invariant pending == map t | t in old(pending) && (t in todo || now - old(pending)[t].at <= c.failure) :: old(pending)[t]
        decreases todo
      {
        var t :| t in todo;
        if now - pending[t].at > c.failure { pending := pending - {t}; }
        todo := todo - {t};
      }
      assert pending == Unanswered(old(pending), now, c.failure);
    }

    /* ----- events ----- */

    /** A daemon starts with nothing selected; an earlier process leaves it its record. */
    constructor (c: Config, leader: bool, file: bool, rekeyOn: bool, psk: Key, was: History, now: Time)
      requires Bequeaths(Settings(c, leader, file, rekeyOn), was, now)
      ensures Valid() && this.c == c && this.leader == leader && h == NewHistory(was, now)
    {
      this.c, this.leader, this.file, this.rekeyOn := c, leader, file, rekeyOn;
      route, this.psk, pskValid, status := NEW_ROUTE, psk, false, None;
      rekey, completed, replacement, previous := None, None, None, None;
      cooldown, retired, retiredUntil, paths, known, pending, managed, mismatch := 0, map[], 0, map[], {}, map[], None, false;
      h := NewHistory(was, now);
      new;
      StartFits(Settings(c, leader, file, rekeyOn), psk, was, now);
    }

    /** An authenticated message arrives on a LAN path; it was sent at `sentAt` and is
        looked at after `elapsed`. */
    method Receive(path: Path, m: Message, sentAt: Time, now: Time, elapsed: nat) returns (alive: bool)
      requires Valid() && h.event.latest <= now && sentAt <= now && m.token != NO_TOKEN
      modifies this
      ensures Ends(alive) && Along(Heard(old(Value()), m, sentAt, now).h, h) && paths == old(paths)
      ensures h.log == if path in old(known) && old(Fresh(path, now)) then Tally(old(h.log), m, path, now + elapsed) else old(h.log)
      ensures alive && m.op in {Committed, Keep, Hold} && path in old(known) && old(Fresh(path, now)) && old(About(path, m.token)) == Current ==>
                Heeds(old(route), route, m.op, now + elapsed)
      ensures OpensFairly(old(Value()).r, path, now + elapsed)
      ensures h.event.admitted.Some? ==> h.event.admitted == Some(now + elapsed)
      ensures h.event.opening.None? ==> h.ledger.used == old(h.ledger.used)
      ensures alive && h.event.opening.None? ==> Undelayed(old(route), route, old(replacement), replacement, old(rekey), rekey)
    {
      if path in known && Fresh(path, now) {
        alive := ReceiveFresh(path, m, sentAt, now, elapsed);
      } else {
        Hear(m, sentAt, now);
        alive := true;
      }
    }

    method ReceiveFresh(path: Path, m: Message, sentAt: Time, now: Time, elapsed: nat) returns (alive: bool)
      requires Valid() && h.event.latest <= now && sentAt <= now && m.token != NO_TOKEN
      modifies this
      ensures Ends(alive) && Along(Heard(old(Value()), m, sentAt, now).h, h) && paths == old(paths) && h.log == Tally(old(h.log), m, path, now + elapsed)
      ensures alive && m.op in {Committed, Keep, Hold} && old(About(path, m.token)) == Current ==> Heeds(old(route), route, m.op, now + elapsed)
      ensures OpensFairly(old(Value()).r, path, now + elapsed)
      ensures h.event.admitted.Some? ==> h.event.admitted == Some(now + elapsed)
      ensures h.event.opening.None? ==> h.ledger.used == old(h.ledger.used)
      ensures alive && h.event.opening.None? ==> Undelayed(old(route), route, old(replacement), replacement, old(rekey), rekey)
    {
      ghost var was := Value();
      Hear(m, sentAt, now);
      ghost var heard := h;
      assert Value().r == was.r && heard == Heard(was, m, sentAt, now).h && About(path, m.token) == old(About(path, m.token));
      alive := Look(path, m, now + elapsed);
      assert Along(heard, h);
    }

    method Hear(m: Message, sentAt: Time, now: Time)
      requires Valid() && h.event.latest <= now && sentAt <= now && m.token != NO_TOKEN
      modifies this`h
      ensures Valid() && h == Heard(old(Value()), m, sentAt, now).h && NewEvent(m, now) && h.log == old(h.log) && h.ledger.used == old(h.ledger.used)
    {
      HearKeeps(Value(), m, sentAt, now);
      h := Heard(Value(), m, sentAt, now).h;
    }

    /** A message has arrived and done nothing yet. */
    ghost predicate NewEvent(m: Message, now: Time)
      reads this
    {
      && h.event.clock == h.event.latest == now && h.event.message == Some(m)
      && h.event.before == h.ledger.gone && h.event.admitted.None? && h.event.opening.None?
    }

    /** What a message does once it is looked at. */
    method Look(path: Path, m: Message, now: Time) returns (alive: bool)
      requires Valid() && NewEvent(m, h.event.clock) && h.event.clock <= now
      modifies this
      ensures Ends(alive) && Along(old(h), h) && paths == old(paths) && h.log == Tally(old(h.log), m, path, now)
      ensures OpensFairly(old(Value()).r, path, now)
      ensures alive && m.op in {Committed, Keep, Hold} && old(About(path, m.token)) == Current ==> Heeds(old(route), route, m.op, now)
      ensures h.event.admitted.Some? ==> h.event.admitted == Some(now)
      ensures h.event.opening.None? ==> h.ledger.used == old(h.ledger.used)
      ensures alive && h.event.opening.None? ==> Undelayed(old(route), route, old(replacement), replacement, old(rekey), rekey)
    {
      Elapse(now);
      if AboutRekey(m.op) {
        alive := CoordinateRekey(path, m, now);
      } else {
        ghost var trouble, at;
        alive, trouble, at := Coordinate(path, m, now);
      }
    }

    method Elapse(t: Time)
      requires Sane() && h.event.latest <= t
      modifies this`h
      ensures Sane() && h == old(h).(event := old(h.event).(latest := t))
    {
      PassKeeps(Value(), t);
      h := Passed(Value(), t).h;
    }

    /** An interface is gone, and a path with it. */
    method RemovePath(path: Path, now: Time) returns (alive: bool)
      requires Valid() && h.event.latest <= now
      modifies this
      ensures Ends(alive) && Ticked(old(h), h) && paths == old(paths)
      ensures alive ==> route.selected != Some(path) && (replacement.Some? ==> replacement.value.path != path) && path !in known
    {
      alive := true;
      Wake(now);
      Shaped();
      if route.selected == Some(path) {
        ghost var trouble, at;
        alive, trouble, at := Rollback(now);
        Shaped();
      } else if replacement.Some? && replacement.value.path == path {
        CancelReplacement(now);
      }
      known := known - {path};
    }

    /** A path is listed when the peer is first heard on it; at most sixteen are. */
    method Find(path: Path, scoped: bool, now: Time)
      requires Valid() && path !in paths
      modifies this`paths, this`known
      ensures Valid() && (Value() == old(Value()) || Value() == Found(old(Value()), path, scoped, now))
      ensures |known| <= 16 || known == old(known)
    {
      if |known| >= MAX_PATHS { return; }
      FindKeeps(Value(), path, scoped, now);
      paths, known := paths[path := Lan(scoped, 0, None, Measurements(Some(now), []))], known + {path};
    }

    /** Paths without a fresh reply are no longer listed, except the selected one. */
    method PrunePaths(now: Time)
      modifies this`known
      ensures known == set x | x in old(known) && (!Stale(x, now) || route.selected == Some(x))
    {
      var todo := known;
      while todo != {}
        invariant todo <= old(known)
        invariant known == set x | x in old(known) && (x in todo || !Stale(x, now) || route.selected == Some(x))
        decreases todo
      {
        var x :| x in todo;
        if Stale(x, now) && route.selected != Some(x) { known := known - {x}; }
        todo := todo - {x};
      }
    }

    predicate Stale(path: Path, now: Time)
      reads this`paths
    {
      path in paths && paths[path].stats.since.Some? && now - paths[path].stats.since.value > c.failure && !Fresh(path, now)
    }

    /** Probes are sent on every tick; here they may be sent at any time. */
    method Ping(on: Option<Path>, token: Token, session: nat, now: Time) returns (ghost sent: bool)
      requires Valid() && token !in h.trips.pings && token !in pending
      modifies this`pending, this`route, this`h
      ensures Valid() && Ticked(old(h), h)
      ensures Value() == old(Value()) || (Value() == Pinged(old(Value()), on, token, session, now) && old(|pending|) < MAX_PENDING)
      ensures token in pending <==> sent && old(|pending|) < 2048 && (on.Some? ==> on.value in known)
      ensures token in pending ==>
                pending == old(pending)[token := Probe(on, now, session, on.None? || (on.value in paths && paths[on.value].session == session))]
    {
      var able := Chance();
      sent := able;
      if |pending| >= MAX_PENDING || !able || (on.Some? && on.value !in known) { return; }
      PingKeeps(Value(), on, token, session, now);
      Probing(on, token, session, now);
    }

    method Probing(on: Option<Path>, token: Token, session: nat, now: Time)
      modifies this`pending, this`route, this`h
      ensures Value() == Pinged(old(Value()), on, token, session, now)
    {
      h := Pinged(Value(), on, token, session, now).h;
      var measure := on.None? || (on.value in paths && session == paths[on.value].session);
      pending := pending[token := Probe(on, now, session, measure)];
      if on.None? && route.tunnel.since.None? { route := route.(tunnel := route.tunnel.(since := Some(now))); }
    }

    /** A reply counts exactly if its probe is pending and it comes in time, on the
        probe's session and path; then the probe is no longer pending. */
    method Pong(on: Option<Path>, token: Token, session: nat, now: Time)
      requires Valid() && h.event.latest <= now
      modifies this`pending, this`route, this`paths, this`h
      ensures Valid() && Ticked(old(h), h)
      ensures Value() == if token in old(pending) && old(pending)[token].session == session && now - old(pending)[token].at <= c.failure
                            && old(pending)[token].path == on
                         then Ponged(Woken(old(Value()), now), token, session, now) else Woken(old(Value()), now)
      ensures if token in old(pending) && old(pending)[token].session == session && now - old(pending)[token].at <= c.failure
                 && old(pending)[token].path == on
              then Counted(old(pending), old(route), old(paths), on, token, session, now)
              else pending == old(pending) && route == old(route) && paths == old(paths)
    {
      Wake(now);
      if token !in pending || pending[token].session != session || now - pending[token].at > c.failure || pending[token].path != on { return; }
      PongKeeps(Value(), token, session, now);
      Accept(on, token, session, now);
    }

    /** A reply through the tunnel is a sign of life and a sample; one on a path confirms
        its session, and is a sample if the session was confirmed before. */
    ghost predicate Counted(was: map<Token, Probe>, r: Route, known: map<Path, Lan>, on: Option<Path>, token: Token, session: nat, now: Time)
      reads this
      requires token in was
    {
      var x := Sample(now, now - was[token].at, token, session);
      && pending == was - {token}
      && match on
         case None => route == r.(tunnel := Add(r.tunnel, x, c.window), lastTunnel := Some(now)) && paths == known
         case Some(path) =>
           && route == r && paths.Keys == known.Keys && (forall y :: y in known && y != path ==> paths[y] == known[y])
           && (path in known ==>
                 && paths[path].session == session && paths[path].lastPong == Some(now) && paths[path].scoped == known[path].scoped
                 && paths[path].stats == if was[token].measure then Add(known[path].stats, x, c.window) else known[path].stats)
    }

    method Accept(on: Option<Path>, token: Token, session: nat, now: Time)
      requires token in pending && pending[token].path == on
      modifies this`pending, this`route, this`paths
      ensures Value() == Ponged(old(Value()), token, session, now) && (Follows() <==> old(Follows()))
    {
      var q := pending[token];
      var sample := Sample(now, now - q.at, token, session);
      pending := pending - {token};
      if on.Some? {
        paths := LanReply(paths, q, sample, c.window);
      } else {
        route := route.(tunnel := Add(route.tunnel, sample, c.window), lastTunnel := Some(now));
      }
    }
  }
}
