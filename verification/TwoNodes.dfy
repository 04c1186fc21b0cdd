/** A leader and a follower over a network that loses, repeats, reorders and delays
    messages; both fail and start again at will. */
module TwoNodes {
  import opened Common
  import opened Measure
  import opened Story
  import opened Mesh
  import opened Steps
  import opened MeshPeers
  import Sessions

  /** The longest delay that the secure channel lets through. */
  const DELAY: Time := Sessions.PENDING + Sessions.LIFETIME

  /** A message that its sender sent at the given time and that can still be opened:
      the secure channel passes nothing that is too old or that was sealed before
      the receiving process started. */
  predicate InFlight(from: History, to: History, m: Message, sentAt: Time, now: Time) {
    && m.token != NO_TOKEN && Fact(m.op, m.token) in from.past.said && Proof(m.op, m.token, m.key) in from.past.proved
    && (m.op == Prepare ==> Sent(m.token, sentAt) in from.ledger.prepares)
    && to.boot <= sentAt <= now < sentAt + DELAY
  }

  /** The follower heard of a token after the leader chose it. */
  ghost predicate ToldAfter(l: Ledger, f: Ledger) {
    forall t :: t in f.told ==> t in l.proposed && l.proposed[t] <= f.told[t]
  }

  ghost predicate Paired(l: History, f: History) {
    HearsOnly(l.past, f.past) && HearsOnly(f.past, l.past) && ToldAfter(l.ledger, f.ledger)
  }

  /** A node that is not running keeps its past. */
  ghost predicate Meet(l: MeshPeer, f: MeshPeer, lUp: bool, fUp: bool)
    reads l, f
  {
    l.leader && !f.leader && l.Ends(lUp) && f.Ends(fUp) && Paired(l.h, f.h)
  }

  /** What a token that opens a transaction must be: not retired in this process, by
      a proposal of this process's time, sent less than a minute after the leader chose
      it; so one that an earlier process retired, it retired less than a minute
      before this one started. */
  predicate OpensRightly(l: History, f: History, sentAt: Time) {
    f.event.opening.Some? ==>
      var t := f.event.opening.value;
      && t !in f.ledger.gone
      && t in l.ledger.proposed && f.boot <= sentAt && l.ledger.proposed[t] <= sentAt < l.ledger.proposed[t] + MINUTE
      && (t in f.ledger.forgotten ==> f.boot < f.ledger.forgotten[t] + MINUTE)
  }

  /** A message reaches the follower. Under a token that this process used before it
      opens a transaction exactly if that is the active route's. */
  method ToFollower(l: MeshPeer, f: MeshPeer, lUp: bool, path: Path, m: Message, sentAt: Time, now: Time, elapsed: nat) returns (alive: bool)
    requires l != f && Meet(l, f, lUp, true) && InFlight(l.h, f.h, m, sentAt, now) && f.h.event.latest <= now
    modifies f
    ensures Meet(l, f, lUp, alive) && f.h.event.latest >= now
    ensures OpensRightly(l.h, f.h, sentAt)
    ensures f.h.event.opening.Some? ==>
              (f.h.event.opening.value in old(f.h.ledger.used) <==> old(f.route.phase) == Active && old(f.route.trial) == f.h.event.opening.value)
    ensures alive && f.h.event.opening.None? ==> OnTime(old(f.Value()).r, f.Value().r)
  {
    ghost var before := f.Value();
    UsedByRoute(before, m.token);
    TokenFacts(l.Value());
    TokenFacts(before);
    alive := f.Receive(path, m, sentAt, now, elapsed);
    TokenFacts(f.Value());
    if f.h.event.opening.Some? { OpeningIsRight(l.h, before.h, f.h, m, sentAt, now, elapsed); }
  }

  lemma TokenFacts(s: State)
    requires Fit(s)
    ensures PreparesFit(s.h.ledger) && EventFit(s.h.ledger, s.h.event)
    ensures GoneTold(s.own.leader, s.h.ledger, s.h.event.clock) && ForgottenTold(s.own.leader, s.h.ledger, s.h.boot)
  {
    assert Holds(Tokens, s);
  }

  /** A free machine uses no token but its active route's. */
  lemma UsedByRoute(s: State, t: Token)
    requires Fit(s)
    ensures forall path :: Free(s.r, path) && t !in s.h.ledger.gone && t != NO_TOKEN ==>
              (t in s.h.ledger.used <==> s.r.route.phase == Active && s.r.route.trial == t)
  {
    assert Holds(Tokens, s) && Holds(Protocol, s);
  }

  lemma OpeningIsRight(l: History, was: History, f: History, m: Message, sentAt: Time, now: Time, elapsed: nat)
    requires InFlight(l, was, m, sentAt, now) && PreparesFit(l.ledger) && ToldAfter(l.ledger, was.ledger)
    requires GoneTold(false, was.ledger, was.event.clock) && ForgottenTold(false, was.ledger, was.boot)
    requires EventFit(f.ledger, f.event) && f.event.opening.Some? && f.event.message == Some(m) && f.event.before == was.ledger.gone == f.ledger.gone
    requires f.event.admitted == Some(now + elapsed) && elapsed < MINUTE && f.ledger.forgotten == was.ledger.forgotten && f.boot == was.boot
    ensures OpensRightly(l, f, sentAt) && f.event.opening.value == m.token
  {
    assert Sent(m.token, sentAt) in l.ledger.prepares;
  }

  method ToLeader(l: MeshPeer, f: MeshPeer, fUp: bool, path: Path, m: Message, sentAt: Time, now: Time, elapsed: nat) returns (alive: bool)
    requires l != f && Meet(l, f, true, fUp) && InFlight(f.h, l.h, m, sentAt, now) && l.h.event.latest <= now
    modifies l
    ensures Meet(l, f, alive, fUp) && l.h.event.latest >= now && l.h.event.opening.None?
    ensures alive ==> OnTime(old(l.Value()).r, l.Value().r)
  {
    alive := l.Receive(path, m, sentAt, now, elapsed);
  }

  /** No deadline of a node has moved. */
  predicate OnTime(r: Routes, r': Routes) {
    Undelayed(r.route, r'.route, r.replacement, r'.replacement, r.rekey, r'.rekey)
  }

  /** What happens at one node: at the leader if `first`, otherwise at the follower. */
  datatype Turn =
    | Tick(first: bool, token: Token, now: Time)
    | Deliver(first: bool, path: Path, m: Message, sentAt: Time, now: Time, elapsed: nat)
    | Remove(first: bool, path: Path, now: Time)
    | Find(first: bool, path: Path, scoped: bool, now: Time)
    | Ping(first: bool, on: Option<Path>, token: Token, session: nat, now: Time)
    | Pong(first: bool, on: Option<Path>, token: Token, session: nat, now: Time)
    | Restart(first: bool, file: bool, rekeyOn: bool, psk: Key, now: Time)

  /** An event of one node that concerns no message from the other. A turn that
      cannot happen now does nothing. */
  method Alone(p: MeshPeer, turn: Turn) returns (alive: bool)
    requires p.Valid() && !turn.Deliver? && !turn.Restart?
    modifies p
    ensures p.Ends(alive) && Ticked(old(p.h), p.h)
  {
    alive := true;
    match turn
    case Tick(_, token, now) =>
      if p.h.event.latest <= now && token != NO_TOKEN && token !in p.h.ledger.proposed {
        var at;
        alive, at := p.Tick(token, now);
      }
    case Remove(_, path, now) => if p.h.event.latest <= now { alive := p.RemovePath(path, now); }
    case Find(_, path, scoped, now) => if path !in p.paths { p.Find(path, scoped, now); }
    case Ping(_, on, token, session, now) =>
      if token !in p.h.trips.pings && token !in p.pending {
        ghost var sent := p.Ping(on, token, session, now);
      }
    case Pong(_, on, token, session, now) => if p.h.event.latest <= now { p.Pong(on, token, session, now); }
  }

  /** The daemon stops, if it has not stopped already, and starts again. */
  method StartAgain(p: MeshPeer, turn: Turn) returns (q: MeshPeer)
    requires p.Sane() && turn.Restart?
    ensures q.Valid() && q.leader == p.leader && q.c == p.c && q.h == NewHistory(p.h, q.h.boot) && p.h.event.latest <= q.h.boot
    ensures fresh(q)
  {
    var now := if turn.now < p.h.event.latest then p.h.event.latest else turn.now;
    if now < 0 { now := 0; }
    FitBequeaths(p.Value(), now);
    q := new MeshPeer(p.c, p.leader, turn.file, turn.rekeyOn, turn.psk, p.h, now);
  }

  /** Two nodes and whether they are running; and what must never have happened: a
      token was taken up wrongly, or a message moved a deadline. */
  datatype Pair = Pair(l: MeshPeer, f: MeshPeer, lUp: bool, fUp: bool, wrong: bool, delayed: bool)

  ghost predicate Fine(p: Pair)
    reads p.l, p.f
  {
    p.l != p.f && Meet(p.l, p.f, p.lUp, p.fUp) && !p.wrong && !p.delayed
  }

  /** One turn of a run. */
  method Take(p: Pair, turn: Turn) returns (q: Pair)
    requires Fine(p)
    modifies p.l, p.f
    ensures Fine(q) && (q.l == p.l || fresh(q.l)) && (q.f == p.f || fresh(q.f)) && q.l.c == p.l.c && q.f.c == p.f.c
  {
    q := p;
    if turn.Restart? {
      if turn.first {
        var l := StartAgain(p.l, turn);
        q := p.(l := l, lUp := true);
      } else {
        var f := StartAgain(p.f, turn);
        q := p.(f := f, fUp := true);
      }
    } else if turn.first && p.lUp {
      q := TakeLeader(p, turn);
    } else if !turn.first && p.fUp {
      q := TakeFollower(p, turn);
    }
  }

  method TakeLeader(p: Pair, turn: Turn) returns (q: Pair)
    requires Fine(p) && p.lUp && !turn.Restart?
    modifies p.l
    ensures Fine(q) && q.l == p.l && q.f == p.f
  {
    q := p;
    if !turn.Deliver? {
      var alive := Alone(p.l, turn);
      q := p.(lUp := alive);
    } else if InFlight(p.f.h, p.l.h, turn.m, turn.sentAt, turn.now) && p.l.h.event.latest <= turn.now {
      var was := p.l.Value().r;
      var alive := ToLeader(p.l, p.f, p.fUp, turn.path, turn.m, turn.sentAt, turn.now, turn.elapsed);
      q := p.(lUp := alive, delayed := alive && !OnTime(was, p.l.Value().r));
    }
  }

  method TakeFollower(p: Pair, turn: Turn) returns (q: Pair)
    requires Fine(p) && p.fUp && !turn.Restart?
    modifies p.f
    ensures Fine(q) && q.l == p.l && q.f == p.f
  {
    q := p;
    if !turn.Deliver? {
      var alive := Alone(p.f, turn);
      q := p.(fUp := alive);
    } else if InFlight(p.l.h, p.f.h, turn.m, turn.sentAt, turn.now) && p.f.h.event.latest <= turn.now {
      var was := p.f.Value().r;
      var alive := ToFollower(p.l, p.f, p.lUp, turn.path, turn.m, turn.sentAt, turn.now, turn.elapsed);
      var opening := p.f.h.event.opening;
      q := p.(fUp := alive, wrong := !OpensRightly(p.l.h, p.f.h, turn.sentAt),
              delayed := alive && opening.None? && !OnTime(was, p.f.Value().r));
    }
  }

  /** The controller of a running node manages the peer exactly in trial and active
      phases, with the daemon's key and on the selected path; its key test never failed. */
  lemma ControllerFollows(p: MeshPeer)
    requires p.Ends(true)
    ensures p.managed.Some? <==> p.route.phase == Trial || p.route.phase == Active
    ensures p.managed.Some? ==> p.managed.value.psk == p.psk && Some(p.managed.value.path) == p.route.selected
    ensures !p.mismatch
  {
  }

  /** What the nodes agree on about a token and a key, whatever happened. */
  ghost predicate AgreeOn(l: Past, f: Past, t: Token, k: Key) {
    && (Install(t, k) in f.installed ==> Install(t, k) in l.installed)
    && (Install(t, k) in l.installed ==> t in f.prepared && Proof(Ready, t, k) in f.proved)
    && (t in l.activated || t in f.activated ==> Tried(l.installed, t) && Tried(f.installed, t) && t in l.improved && t in f.improved)
    && (Install(t, k) in l.rekeyed ==> Proof(RekeyReady, t, k) in f.proved)
    && (Install(t, k) in f.rekeyed ==> Proof(RekeyCommit, t, k) in l.proved)
    && (Install(t, k) in l.finished + f.finished ==> Install(t, k) in l.rekeyed * f.rekeyed)
  }

  /** A route that either node made active was measured by both to be better: the
      median of round trips through the tunnel during the token's own trial improves
      on the median that the node read when the token was proposed. */
  ghost predicate BothImproved(l: MeshPeer, f: MeshPeer, t: Token)
    reads l, f
  {
    t in l.h.past.activated || t in f.h.past.activated ==>
      && t in l.h.past.improved && RealGain(l.h.past.improved[t], t, l.c, l.h.trips)
      && t in f.h.past.improved && RealGain(f.h.past.improved[t], t, f.c, f.h.trips)
  }

  lemma MeetAgrees(l: MeshPeer, f: MeshPeer, t: Token, k: Key)
    requires Meet(l, f, false, false)
    ensures AgreeOn(l.h.past, f.h.past, t, k) && BothImproved(l, f, t)
  {
    assert Holds(Words, l.Value()) && Holds(Words, f.Value());
    TrialAgreement(l.h.past, f.h.past, t, k);
    RekeyAgreement(true, l.h.past, f.h.past, t, k);
    RekeyAgreement(false, f.h.past, l.h.past, t, k);
    assert Holds(Gains, l.Value()) && Holds(Gains, f.Value());
    assert GainAt(l.h.past.improved, l.c, l.h.trips, t) && GainAt(f.h.past.improved, f.c, f.h.trips, t);
  }

  /** Every route that the node made active had the peer's keep behind it: the last the
      node heard about it on its path was a keep, less than `failure` before. */
  ghost predicate KeptAll(p: MeshPeer)
    reads p
  {
    forall t :: t in p.h.past.activated ==> exists j: nat, i: nat :: KeptBefore(p.h.log, p.c.failure, t, j, i)
  }

  lemma SaneIsKept(p: MeshPeer)
    requires p.Sane()
    ensures KeptAll(p)
  {
    assert Holds(Votes, p.Value());
    forall t | t in p.h.past.activated ensures exists j: nat, i: nat :: KeptBefore(p.h.log, p.c.failure, t, j, i) {
      ActivatedOnKeep(p.h.past.activated, p.h.log, p.c.failure, t);
    }
  }

  /** What an improvement is made of: `rtt` and the baseline are the middles of the round
      trips in a window during the trial and in one before the proposal, with four
      fifths of the probes answered, and the policy's margins lie between them. */
  lemma GainIsMeasured(g: Gain, t: Token, c: Config, trips: Trips)
    requires RealGain(g, t, c, trips)
    ensures c.Legal() && Middle(g.trial.tunnel.samples, g.trial.at, c.window, g.rtt) && Middle(g.before.tunnel.samples, g.before.at, c.window, g.baseline)
    ensures 10 * |Young(g.trial.tunnel.samples, g.trial.at, c.window)| >= 8 * (c.window / c.probe)
    ensures 10 * |Young(g.before.tunnel.samples, g.before.at, c.window)| >= 8 * (c.window / c.probe)
    ensures g.rtt < g.baseline && g.baseline - g.rtt >= c.minGain && g.rtt as real <= g.baseline as real * (1.0 - c.gain)
  {
    MedianIsMiddle(g.trial.tunnel, g.trial.at, c);
    MedianIsMiddle(g.before.tunnel, g.before.at, c);
  }

  /** Every run: both nodes keep what every state satisfies, a running node's
      controller follows its route, they agree on every token and key, every route made
      active was measured by both to be better and had the peer's keep behind it, tokens are taken up rightly and no
      message moves a deadline. */
  method Converse(c: Config, d: Config, start: Time, turns: seq<Turn>) returns (p: Pair)
    requires c.Legal() && d.Legal() && 0 <= start
    ensures Fine(p) && p.l.c == c && p.f.c == d
    ensures forall t, k {:trigger AgreeOn(p.l.h.past, p.f.h.past, t, k)} :: AgreeOn(p.l.h.past, p.f.h.past, t, k)
    ensures forall t {:trigger BothImproved(p.l, p.f, t)} :: BothImproved(p.l, p.f, t)
    ensures KeptAll(p.l) && KeptAll(p.f)
  {
    var l := new MeshPeer(c, true, false, false, ZERO_KEY, NoHistory(), start);
    var f := new MeshPeer(d, false, false, false, ZERO_KEY, NoHistory(), start);
    p := Pair(l, f, true, true, false, false);
    for i := 0 to |turns|
      invariant fresh(p.l) && fresh(p.f) && Fine(p) && p.l.c == c && p.f.c == d
    {
      p := Take(p, turns[i]);
    }
    SaneIsKept(p.l);
    SaneIsKept(p.f);
    forall t, k ensures AgreeOn(p.l.h.past, p.f.h.past, t, k) { MeetAgrees(p.l, p.f, t, k); }
    forall t ensures BothImproved(p.l, p.f, t) { MeetAgrees(p.l, p.f, t, ZERO_KEY); }
  }
}
