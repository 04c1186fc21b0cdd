/** Runs of a follower in which one token opens two transactions: by a late proposal for
    the active route's token on another path, and across a restart. */
module Example {
  import opened Common
  import opened Measure
  import opened Story
  import opened Mesh
  import opened Steps

  /** What a follower with a fixed key may do when nothing fails and no time is lost. */
  datatype Move =
    | Find(path: Path, now: Time)
    | Ping(on: Option<Path>, token: Token, now: Time)
    | Pong(token: Token, now: Time)
    | AcceptPrepare(path: Path, m: Message, sentAt: Time, now: Time)
    | RejectPrepare(path: Path, m: Message, sentAt: Time, now: Time)
    | GetCommit(path: Path, m: Message, now: Time)
    | GetKeep(path: Path, m: Message, now: Time)
    | Activate(now: Time)

  const SESSION := 1

  /** The message concerns the current route and nothing else is pending. */
  ghost predicate ForRoute(s: State, path: Path, m: Message) {
    && s.r.route.selected == Some(path) && s.r.route.trial == m.token && m.token != NO_TOKEN
    && s.r.replacement.None? && s.r.previous.None? && s.r.rekey.None?
  }

  ghost predicate Fresh(s: State, path: Path, now: Time) {
    FreshAt(s.paths, path, now, s.own.c.failure)
  }

  /** A proposal that is considered: on a fresh path, not refused as retired, proved
      with the key in use, and with nothing under way. */
  ghost predicate Considered(s: State, path: Path, m: Message, sentAt: Time, now: Time) {
    && s.h.event.latest <= now && s.h.boot <= sentAt <= now && m.op == Prepare && m.token != NO_TOKEN && m.key == s.r.psk
    && Fresh(s, path, now) && s.k.until <= now && (m.token in s.k.retired ==> s.k.retired[m.token] <= now)
    && Opens(s, m, path, now)
  }

  ghost predicate May(s: State, move: Move)
    requires s.own.c.Legal()
  {
    !s.own.leader && !s.own.file && match move
    case Find(path, now) => path !in s.paths && |s.paths| < MAX_PATHS
    case Ping(on, token, now) => token !in s.h.trips.pings && token !in s.pending && |s.pending| < MAX_PENDING
    case Pong(token, now) => s.h.event.latest <= now && token in s.pending && s.pending[token].session == SESSION && now - s.pending[token].at <= s.own.c.failure
    case AcceptPrepare(path, m, sentAt, now) => Considered(s, path, m, sentAt, now) && Qualifies(s.paths, s.r.route, path, now, s.own.c)
    case RejectPrepare(path, m, sentAt, now) => Considered(s, path, m, sentAt, now) && !Qualifies(s.paths, s.r.route, path, now, s.own.c)
    case GetCommit(path, m, now) =>
      && s.h.event.latest <= now && ForRoute(s, path, m) && m.op == Commit && m.key == s.r.psk
      && s.r.route.phase == Prepared && Fresh(s, path, now) && now - s.r.route.since < s.own.c.failure
    case GetKeep(path, m, now) => s.h.event.latest <= now && ForRoute(s, path, m) && m.op == Keep && Fresh(s, path, now)
    case Activate(now) =>
      var r := s.r.route;
      && s.h.event.latest <= now && r.phase == Trial && r.selected.Some? && Fresh(s, r.selected.value, now) && now - r.Last() < s.own.c.failure
      && s.r.replacement.None? && s.r.previous.None? && s.r.rekey.None? && r.trial in s.h.trips.bases
      && Median(r.tunnel, now, s.own.c).Some? && Improves(Median(r.tunnel, now, s.own.c).value, r.baseline, s.own.c)
      && r.remoteGood && now - r.remoteAt < s.own.c.failure && r.committed && now - r.since <= MAX_TRIAL
  }

  ghost function After(s: State, move: Move): State
    requires s.own.c.Legal() && May(s, move)
  {
    match move
    case Find(path, now) => Found(s, path, false, now)
    case Ping(on, token, now) => Pinged(s, on, token, SESSION, now)
    case Pong(token, now) => Ponged(Woken(s, now), token, SESSION, now)
    case AcceptPrepare(path, m, sentAt, now) =>
      var s1 := Admitted(Heard(s, m, sentAt, now), now);
      Said(Opened(s1, m, path, Median(s.r.route.tunnel, now, s.own.c).value, now), Ready, m.token, now)
    case RejectPrepare(path, m, sentAt, now) => Retired(Admitted(Heard(s, m, sentAt, now), now), m.token, now)
    case GetCommit(path, m, now) => Said(Noting(Begun(Heard(s, m, now, now), now), m, path, now), Committed, m.token, now)
    case GetKeep(path, m, now) => Noting(Heard(s, m, now, now), m, path, now)
    case Activate(now) =>
      Said(Activated(Graded(Woken(s, now), Median(s.r.route.tunnel, now, s.own.c), now), now), Keep, s.r.route.trial, now)
  }

  ghost predicate Next(s: State, s': State) {
    s.own.c.Legal() && exists move :: May(s, move) && s' == After(s, move)
  }

  lemma AcceptKeeps(s: State, path: Path, m: Message, sentAt: Time, now: Time)
    requires Fit(s) && s.own.c.Legal() && May(s, AcceptPrepare(path, m, sentAt, now))
    ensures Fit(After(s, AcceptPrepare(path, m, sentAt, now)))
  {
    HearKeeps(s, m, sentAt, now);
    var s1 := Heard(s, m, sentAt, now);
    AdmitKeeps(s1, m, now);
    var s2, base := Admitted(s1, now), Median(s.r.route.tunnel, now, s.own.c).value;
    OpenKeeps(s2, m, path, base, now);
    SayKeeps(Opened(s2, m, path, base, now), Ready, m.token, now);
  }

  lemma RejectKeeps(s: State, path: Path, m: Message, sentAt: Time, now: Time)
    requires Fit(s) && s.own.c.Legal() && May(s, RejectPrepare(path, m, sentAt, now))
    ensures Fit(After(s, RejectPrepare(path, m, sentAt, now)))
  {
    HearKeeps(s, m, sentAt, now);
    var s1 := Heard(s, m, sentAt, now);
    AdmitKeeps(s1, m, now);
    RetireKeeps(Admitted(s1, now), m.token, now);
  }

  lemma CommitKeeps(s: State, path: Path, m: Message, now: Time)
    requires Fit(s) && s.own.c.Legal() && May(s, GetCommit(path, m, now))
    ensures Fit(After(s, GetCommit(path, m, now)))
  {
    HearKeeps(s, m, now, now);
    var s1 := Heard(s, m, now, now);
    BeginKeeps(s1, m, now);
    NoteKeeps(Begun(s1, now), m, path, now);
    SayKeeps(Noting(Begun(s1, now), m, path, now), Committed, m.token, now);
  }

  lemma ActivationKeeps(s: State, now: Time)
    requires Fit(s) && s.own.c.Legal() && May(s, Activate(now))
    ensures Fit(After(s, Activate(now)))
  {
    var s1, rtt := Woken(s, now), Median(s.r.route.tunnel, now, s.own.c);
    WakeKeeps(s, now);
    GradeKeeps(s1, rtt, now);
    ActivateKeeps(Graded(s1, rtt, now), now);
    SayKeeps(Activated(Graded(s1, rtt, now), now), Keep, s.r.route.trial, now);
  }

  /** Every move keeps what the daemon keeps. */
  lemma MoveKeeps(s: State, move: Move)
    requires Fit(s) && s.own.c.Legal() && May(s, move)
    ensures Fit(After(s, move))
  {
    match move
    case Find(path, now) => FindKeeps(s, path, false, now);
    case Ping(on, token, now) => PingKeeps(s, on, token, SESSION, now);
    case Pong(token, now) => WakeKeeps(s, now); PongKeeps(Woken(s, now), token, SESSION, now);
    case AcceptPrepare(path, m, sentAt, now) => AcceptKeeps(s, path, m, sentAt, now);
    case RejectPrepare(path, m, sentAt, now) => RejectKeeps(s, path, m, sentAt, now);
    case GetCommit(path, m, now) => CommitKeeps(s, path, m, now);
    case GetKeep(path, m, now) => HearKeeps(s, m, now, now); NoteKeeps(Heard(s, m, now, now), m, path, now);
    case Activate(now) => ActivationKeeps(s, now);
  }

  const POLICY := Config(SECOND, 3 * SECOND, 3 * SECOND, SECOND, 0, 0.0)

  const OWN := Settings(POLICY, false, false, false)

  /** A follower that has just started, after whatever history. */
  function Started(h: History, now: Time): State {
    NewState(OWN, ZERO_KEY, h, now)
  }

  ghost predicate IsStart(s: State) {
    exists h, now :: s == Started(h, now)
  }

  ghost predicate Linked(run: seq<State>, i: nat) {
    i < |run| - 1 ==> Next(run[i], run[i + 1])
  }

  /** A run of a follower from its start. */
  ghost predicate IsRun(run: seq<State>) {
    run != [] && IsStart(run[0]) && forall i {:trigger Linked(run, i)} :: Linked(run, i)
  }

  ghost predicate Leads(run: seq<State>, s0: State, s: State) {
    IsRun(run) && run[0] == s0 && run[|run| - 1] == s
  }

  /** Some run from the first state leads to the second. */
  ghost predicate Reached(s0: State, s: State) {
    exists run :: Leads(run, s0, s)
  }

  lemma StartReached(s: State)
    requires IsStart(s)
    ensures Reached(s, s)
  {
    assert forall i :: Linked([s], i);
    assert Leads([s], s, s);
  }

  lemma Continue(s0: State, s: State, move: Move)
    requires Reached(s0, s) && s.own.c.Legal() && May(s, move)
    ensures Reached(s0, After(s, move))
  {
    var run :| Leads(run, s0, s);
    var longer := run + [After(s, move)];
    assert Next(s, After(s, move));
    forall i ensures Linked(longer, i) { assert Linked(run, i); }
    assert Leads(longer, s0, After(s, move));
  }

  lemma NextKeeps(s: State, s': State)
    requires Fit(s) && Next(s, s')
    ensures Fit(s')
  {
    var move :| May(s, move) && s' == After(s, move);
    MoveKeeps(s, move);
  }

  lemma {:induction false} RunKeeps(run: seq<State>, n: nat)
    requires IsRun(run) && Fit(run[0]) && n < |run|
    ensures Fit(run[n])
  {
    if n > 0 {
      RunKeeps(run, n - 1);
      assert Linked(run, n - 1);
      NextKeeps(run[n - 1], run[n]);
    }
  }

  lemma ReachedIsFit(s0: State, s: State)
    requires Reached(s0, s) && Fit(s0)
    ensures Fit(s)
  {
    var run :| Leads(run, s0, s);
    RunKeeps(run, |run| - 1);
  }

  /* ----- steady measurements ----- */

  /** All round trips are equal, and the last `n` ended at `from` or later. */
  ghost predicate Steady(w: Measurements, rtt: Time, n: nat, from: Time, size: nat) {
    && n <= |w.samples| <= size && w.since.Some?
    && (forall i :: 0 <= i < |w.samples| ==> w.samples[i].rtt == rtt)
    && (forall i :: |w.samples| - n <= i < |w.samples| ==> from <= w.samples[i].at)
  }

  lemma {:induction false} RecentSteady(w: Measurements, rtt: Time, n: nat, from: Time, size: nat, now: Time)
    requires Steady(w, rtt, n, from, size) && now - from <= POLICY.window
    ensures Steady(w.(samples := Recent(w.samples, now, POLICY.window)), rtt, n, from, size)
    decreases |w.samples|
  {
    if w.samples != [] {
      var shorter := w.(samples := w.samples[..|w.samples| - 1]);
      RecentSteady(shorter, rtt, if n == 0 then 0 else n - 1, from, size, now);
    }
  }

  lemma SteadyMedian(w: Measurements, rtt: Time, from: Time, size: nat, now: Time)
    requires Steady(w, rtt, 3, from, size) && now - from <= POLICY.window <= now - w.since.value
    ensures Median(w, now, POLICY) == Some(rtt)
  {
    RecentSteady(w, rtt, 3, from, size, now);
    var values := Times(Recent(w.samples, now, POLICY.window));
    SortSorts(values, 0);
    assert Sort(values)[|values| / 2] in multiset(Sort(values));
  }

  /** One more measurement. */
  function Measured(w: Measurements, token: Token, sentAt: Time, at: Time): Measurements {
    Measurements(if w.since.None? then Some(sentAt) else w.since,
                 Recent(w.samples, at, POLICY.window) + [Sample(at, at - sentAt, token, SESSION)])
  }

  lemma MeasuredSteady(w: Measurements, rtt: Time, n: nat, from: Time, size: nat, token: Token, sentAt: Time)
    requires Steady(w, rtt, n, from, size) && from <= sentAt + rtt <= from + POLICY.window
    ensures Steady(Measured(w, token, sentAt, sentAt + rtt), rtt, n + 1, from, size + 1)
  {
    RecentSteady(w, rtt, n, from, size, sentAt + rtt);
  }

  /* ----- round trips ----- */

  /** Eighths of a second. */
  const TICK: Time := SECOND / 8

  /** Nothing is pending, and the tokens from `next` on are unused. */
  ghost predicate Quiet(s: State, latest: Time, next: Token) {
    && s.own == OWN && s.r.psk == ZERO_KEY && s.r.replacement.None? && s.r.previous.None? && s.r.rekey.None?
    && s.k == Cache(map[], 0) && s.pending == map[] && s.h.event.latest == latest && s.h.boot <= latest
    && forall t :: t in s.h.trips.pings ==> t < next
  }

  /** The same but for measurements. */
  ghost predicate SameElse(s: State, s': State) {
    && s'.cooldown == s.cooldown && s'.h.boot == s.h.boot && s'.h.trips.bases == s.h.trips.bases && s'.h.ledger == s.h.ledger
    && s'.r.route == s.r.route.(tunnel := s'.r.route.tunnel, lastTunnel := s'.r.route.lastTunnel)
  }

  lemma PingResult(s: State, token: Token, sentAt: Time)
    requires Quiet(s, s.h.event.latest, token)
    ensures var s' := Pinged(s, None, token, SESSION, sentAt);
      && s'.pending == map[token := Probe(None, sentAt, SESSION, true)] && Quiet(s'.(pending := map[]), s.h.event.latest, token + 1)
      && s'.paths == s.paths && SameElse(s, s') && s'.r.route.tunnel.samples == s.r.route.tunnel.samples
      && s'.r.route.tunnel.since == if s.r.route.tunnel.since.None? then Some(sentAt) else s.r.route.tunnel.since
  {
  }

  lemma PongResult(s: State, next: Token, token: Token, sentAt: Time, at: Time)
    requires s.pending == map[token := Probe(None, sentAt, SESSION, true)] && Quiet(s.(pending := map[]), s.h.event.latest, next)
    requires |s.r.route.tunnel.samples| < MAX_SAMPLES && s.h.event.latest <= at
    ensures var s' := Ponged(Woken(s, at), token, SESSION, at);
      && Quiet(s', at, next) && s'.paths == s.paths && SameElse(s, s') && s'.r.route.lastTunnel == Some(at)
      && s'.r.route.tunnel == s.r.route.tunnel.(samples := Recent(s.r.route.tunnel.samples, at, POLICY.window) + [Sample(at, at - sentAt, token, SESSION)])
  {
    assert Ponged(Woken(s, at), token, SESSION, at).pending == map[];
  }

  lemma TunnelTrip(s0: State, s: State, token: Token, sentAt: Time, at: Time) returns (s': State)
    requires Reached(s0, s) && |s.r.route.tunnel.samples| < MAX_SAMPLES
    requires Quiet(s, s.h.event.latest, token) && s.h.event.latest <= sentAt <= at <= sentAt + SECOND
    ensures Reached(s0, s') && Quiet(s', at, token + 1) && SameElse(s, s') && s'.paths == s.paths
    ensures s'.r.route.lastTunnel == Some(at) && s'.r.route.tunnel == Measured(s.r.route.tunnel, token, sentAt, at)
  {
    assert May(s, Ping(None, token, sentAt));
    Continue(s0, s, Ping(None, token, sentAt));
    PingResult(s, token, sentAt);
    var sent := After(s, Ping(None, token, sentAt));
    Continue(s0, sent, Pong(token, at));
    PongResult(sent, token + 1, token, sentAt, at);
    s' := After(sent, Pong(token, at));
  }

  function Since(w: Measurements, at: Time): Measurements {
    w.(since := if w.since.None? then Some(at) else w.since)
  }

  /** One more equal round trip through the tunnel. */
  lemma TunnelStep(s0: State, s: State, rtt: Time, n: nat, from: Time, size: nat, token: Token, start: Time) returns (s': State)
    requires Reached(s0, s) && size < 103 && Steady(Since(s.r.route.tunnel, start), rtt, n, from, size)
    requires Quiet(s, s.h.event.latest, token) && s.h.event.latest <= start && from <= start + rtt <= from + POLICY.window && 0 <= rtt <= SECOND
    ensures Reached(s0, s') && Quiet(s', start + rtt, token + 1) && SameElse(s, s') && s'.paths == s.paths
    ensures s'.r.route.lastTunnel == Some(start + rtt) && Steady(s'.r.route.tunnel, rtt, n + 1, from, size + 1)
    ensures s'.r.route.tunnel.since == Since(s.r.route.tunnel, start).since
  {
    MeasuredSteady(Since(s.r.route.tunnel, start), rtt, n, from, size, token, start);
    s' := TunnelTrip(s0, s, token, start, start + rtt);
  }

  /** Three of them, one after the other. */
  lemma TunnelTrips(s0: State, s: State, size: nat, first: Token, start: Time, rtt: Time) returns (s': State)
    requires Reached(s0, s) && size < 100 && Steady(Since(s.r.route.tunnel, start), rtt, 0, start + rtt, size)
    requires Quiet(s, s.h.event.latest, first) && s.h.event.latest <= start && 0 <= rtt <= SECOND
    ensures Reached(s0, s') && Quiet(s', start + 3 * rtt, first + 3) && SameElse(s, s') && s'.paths == s.paths
    ensures s'.r.route.lastTunnel == Some(start + 3 * rtt) && Steady(s'.r.route.tunnel, rtt, 3, start + rtt, size + 3)
    ensures s'.r.route.tunnel.since == Since(s.r.route.tunnel, start).since
  {
    s' := TunnelStep(s0, s, rtt, 0, start + rtt, size, first, start);
    s' := TunnelStep(s0, s', rtt, 1, start + rtt, size + 1, first + 1, start + rtt);
    s' := TunnelStep(s0, s', rtt, 2, start + rtt, size + 2, first + 2, start + 2 * rtt);
  }

  /** A path after one more round trip on it. */
  function Tripped(lan: Lan, token: Token, sentAt: Time, at: Time): Lan {
    lan.(session := SESSION, lastPong := Some(at),
         stats := if lan.session == SESSION then Measured(lan.stats, token, sentAt, at) else lan.stats)
  }

  lemma LanPingResult(s: State, path: Path, token: Token, sentAt: Time)
    requires Quiet(s, s.h.event.latest, token) && path in s.paths
    ensures Pinged(s, Some(path), token, SESSION, sentAt)
         == s.(pending := map[token := Probe(Some(path), sentAt, SESSION, s.paths[path].session == SESSION)])
  {
  }

  lemma LanPongResult(s: State, path: Path, token: Token, sentAt: Time, at: Time)
    requires path in s.paths && |s.paths[path].stats.samples| < MAX_SAMPLES && s.own == OWN && s.paths[path].stats.since.Some?
    requires s.pending == map[token := Probe(Some(path), sentAt, SESSION, s.paths[path].session == SESSION)]
    ensures var s1 := Woken(s, at);
      Ponged(s1, token, SESSION, at) == s1.(pending := map[], paths := s.paths[path := Tripped(s.paths[path], token, sentAt, at)])
  {
    assert s.pending - {token} == map[];
  }

  lemma LanTrip(s0: State, s: State, path: Path, token: Token, sentAt: Time, at: Time) returns (s': State)
    requires Reached(s0, s) && path in s.paths && |s.paths[path].stats.samples| < MAX_SAMPLES && s.paths[path].stats.since.Some?
    requires Quiet(s, s.h.event.latest, token) && s.h.event.latest <= sentAt <= at <= sentAt + SECOND
    ensures Reached(s0, s') && Quiet(s', at, token + 1) && SameElse(s, s') && s'.r.route == s.r.route && s'.h.trips == s.h.trips
    ensures s'.paths == s.paths[path := Tripped(s.paths[path], token, sentAt, at)]
  {
    Continue(s0, s, Ping(Some(path), token, sentAt));
    LanPingResult(s, path, token, sentAt);
    var sent := After(s, Ping(Some(path), token, sentAt));
    Continue(s0, sent, Pong(token, at));
    LanPongResult(sent, path, token, sentAt, at);
    s' := After(sent, Pong(token, at));
  }

  /** A path confirmed by this session, whose last `n` round trips ended at `from` or
      later, the very last at `last`. */
  ghost predicate Known(paths: map<Path, Lan>, path: Path, since: Time, rtt: Time, n: nat, from: Time, size: nat, last: Time) {
    && path in paths && !paths[path].scoped && paths[path].session == SESSION && paths[path].lastPong == Some(last)
    && paths[path].stats.since == Some(since) && Steady(paths[path].stats, rtt, n, from, size)
  }

  /** One more equal round trip on a path. */
  lemma LanStep(s0: State, s: State, path: Path, since: Time, rtt: Time, n: nat, from: Time, size: nat, last: Time, token: Token, start: Time)
      returns (s': State)
    requires Reached(s0, s) && size < 103 && Known(s.paths, path, since, rtt, n, from, size, last) && 0 <= rtt <= SECOND
    requires Quiet(s, s.h.event.latest, token) && s.h.event.latest <= start && from <= start + rtt <= from + POLICY.window
    ensures Reached(s0, s') && Quiet(s', start + rtt, token + 1) && SameElse(s, s') && s'.r.route == s.r.route
    ensures Known(s'.paths, path, since, rtt, n + 1, from, size + 1, start + rtt) && s'.paths == s.paths[path := s'.paths[path]]
  {
    MeasuredSteady(s.paths[path].stats, rtt, n, from, size, token, start);
    s' := LanTrip(s0, s, path, token, start, start + rtt);
  }

  /** Three of them, one after the other. */
  lemma LanTrips(s0: State, s: State, path: Path, since: Time, rtt: Time, size: nat, last: Time, first: Token, start: Time)
      returns (s': State)
    requires Reached(s0, s) && size < 100 && Known(s.paths, path, since, rtt, 0, start + rtt, size, last) && 0 <= rtt <= SECOND
    requires Quiet(s, s.h.event.latest, first) && s.h.event.latest <= start
    ensures Reached(s0, s') && Quiet(s', start + 3 * rtt, first + 3) && SameElse(s, s') && s'.r.route == s.r.route
    ensures Known(s'.paths, path, since, rtt, 3, start + rtt, size + 3, start + 3 * rtt) && s'.paths == s.paths[path := s'.paths[path]]
  {
    s' := LanStep(s0, s, path, since, rtt, 0, start + rtt, size, last, first, start);
    s' := LanStep(s0, s', path, since, rtt, 1, start + rtt, size + 1, start + rtt, first + 1, start + rtt);
    s' := LanStep(s0, s', path, since, rtt, 2, start + rtt, size + 2, start + 2 * rtt, first + 2, start + 2 * rtt);
  }

  /* ----- the runs ----- */

  const PATH: Path := 10
  const OTHER: Path := 11
  const TOKEN: Token := 99

  function Word(op: Op): Message {
    Message(op, TOKEN, ZERO_KEY, false)
  }

  /** A follower that starts for the first time. */
  function First(): State {
    Started(NoHistory(), 0)
  }

  lemma FirstIsFit()
    ensures Fit(First())
  {
    StartFits(OWN, ZERO_KEY, NoHistory(), 0);
  }

  /** The two paths, found when the daemon started, and when each was last confirmed. */
  ghost predicate Paths(s: State, boot: Time, n: nat, from: Time, last: Time, m: nat, otherFrom: Time, otherLast: Time, size: nat) {
    && Known(s.paths, PATH, boot, 2 * TICK, n, from, size, last)
    && Known(s.paths, OTHER, boot, TICK, m, otherFrom, size, otherLast)
  }

  lemma ToFound(h: History, s0: State, t: Time) returns (s: State)
    requires s0 == Started(h, t) && t >= 0 && h.trips.pings == map[]
    ensures Reached(s0, s) && Quiet(s, t, 1) && SameElse(s0, s) && s.r.route == NEW_ROUTE && s.h.trips == s0.h.trips
    ensures var lan := Lan(false, 0, None, Measurements(Some(t), [])); s.paths == map[PATH := lan, OTHER := lan]
  {
    assert IsStart(s0);
    StartReached(s0);
    Continue(s0, s0, Find(PATH, t));
    s := After(s0, Find(PATH, t));
    Continue(s0, s, Find(OTHER, t));
    s := After(s, Find(OTHER, t));
  }

  /** Both paths confirmed, the tunnel and one path measured. */
  lemma ToMeasured(h: History, s0: State, t: Time) returns (s: State)
    requires s0 == Started(h, t) && t >= 0 && h.trips.pings == map[]
    ensures Reached(s0, s) && Quiet(s, t + 21 * TICK, 9) && SameElse(s0, s)
    ensures Paths(s, t, 3, t + 16 * TICK, t + 20 * TICK, 0, t, t + 21 * TICK, 3)
    ensures s.r.route == NEW_ROUTE.(tunnel := s.r.route.tunnel, lastTunnel := s.r.route.lastTunnel)
    ensures Steady(s.r.route.tunnel, 4 * TICK, 3, t + 4 * TICK, 3) && s.r.route.tunnel.since == Some(t)
  {
    s := ToFound(h, s0, t);
    s := TunnelTrips(s0, s, 0, 1, t, 4 * TICK);
    s := LanTrip(s0, s, PATH, 4, t + 12 * TICK, t + 14 * TICK);
    s := LanTrips(s0, s, PATH, t, 2 * TICK, 0, t + 14 * TICK, 5, t + 14 * TICK);
    s := LanTrip(s0, s, OTHER, 8, t + 20 * TICK, t + 21 * TICK);
  }

  lemma LanSteady(paths: map<Path, Lan>, path: Path, since: Time, rtt: Time, from: Time, size: nat, last: Time, now: Time)
    requires Known(paths, path, since, rtt, 3, from, size, last) && now - from <= POLICY.window <= now - since
    ensures LanMedian(paths, path, now, POLICY) == Some(rtt)
  {
    SteadyMedian(paths[path].stats, rtt, from, size, now);
  }

  /** A better path qualifies. */
  lemma Better(paths: map<Path, Lan>, r: Route, path: Path, now: Time, tunnel: Time, lan: Time, rival: Time)
    requires path in paths && !paths[path].scoped && FreshAt(paths, path, now, POLICY.failure) && lan < rival
    requires Median(r.tunnel, now, POLICY) == Some(tunnel) && LanMedian(paths, path, now, POLICY) == Some(lan)
    requires Rival(paths, r, now, POLICY) == Some(rival)
    ensures Qualifies(paths, r, path, now, POLICY)
  {
  }

  lemma Accepts(s0: State, s: State, next: Token, path: Path, sentAt: Time, now: Time) returns (s': State)
    requires Reached(s0, s) && Quiet(s, s.h.event.latest, next) && s.h.event.latest <= now && s.h.boot <= sentAt <= now && 0 <= now
    requires Free(s.r, path) && s.cooldown <= now && Fresh(s, path, now) && Qualifies(s.paths, s.r.route, path, now, POLICY)
    ensures Reached(s0, s') && s'.paths == s.paths && s'.h.boot == s.h.boot && s'.cooldown == s.cooldown
    ensures s'.h.event.opening == Some(TOKEN) && TOKEN in s'.h.trips.bases && s'.k == s.k && s'.pending == s.pending && s'.own == s.own
    ensures s'.h.event.latest == now && s'.h.trips.pings == s.h.trips.pings && Median(s.r.route.tunnel, now, POLICY).Some?
    ensures s'.r == OpenedRoutes(s.r, Word(Prepare), path, Median(s.r.route.tunnel, now, POLICY).value, now)
  {
    var move := AcceptPrepare(path, Word(Prepare), sentAt, now);
    assert Opens(s, Word(Prepare), path, now);
    assert Considered(s, path, Word(Prepare), sentAt, now);
    Continue(s0, s, move);
    s' := After(s, move);
  }

  /** Measured, proposed and accepted. */
  lemma ToPrepared(h: History, s0: State, t: Time) returns (s: State)
    requires s0 == Started(h, t) && t >= 0 && h.trips.pings == map[]
    ensures Reached(s0, s) && Quiet(s, t + 24 * TICK, 9) && s.cooldown == 0 && s.h.boot == s0.h.boot
    ensures Paths(s, t, 3, t + 16 * TICK, t + 20 * TICK, 0, t, t + 21 * TICK, 3) && s.h.event.opening == Some(TOKEN) && TOKEN in s.h.trips.bases
    ensures var r := s.r.route;
      r.phase == Prepared && r.selected == Some(PATH) && r.trial == TOKEN && r.since == t + 24 * TICK && r.baseline == 4 * TICK && !r.remoteGood
  {
    s := ToMeasured(h, s0, t);
    var now := t + 24 * TICK;
    SteadyMedian(s.r.route.tunnel, 4 * TICK, t + 4 * TICK, 3, now);
    LanSteady(s.paths, PATH, t, 2 * TICK, t + 16 * TICK, 3, t + 20 * TICK, now);
    Better(s.paths, s.r.route, PATH, now, 4 * TICK, 2 * TICK, 4 * TICK);
    s := Accepts(s0, s, 9, PATH, now, now);
  }

  lemma RefusalResult(s: State, sentAt: Time, now: Time)
    requires TOKEN !in s.h.ledger.told
    ensures var s' := Retired(Admitted(Heard(s, Word(Prepare), sentAt, now), now), TOKEN, now); var l := s'.h.ledger;
      && s'.h.event.latest == now && s'.h.trips == s.h.trips
      && TOKEN in l.gone && l.gone[TOKEN] == now && l.told == s.h.ledger.told[TOKEN := sentAt]
  {
  }

  /** A proposal comes before anything is measured, and its token is retired. */
  lemma ToRefused() returns (s: State)
    ensures Reached(First(), s) && s.own == OWN && s.h.event.latest == 8 * TICK && s.h.trips.pings == map[]
    ensures TOKEN in s.h.ledger.gone && s.h.ledger.gone[TOKEN] == 8 * TICK && s.h.ledger.told == map[TOKEN := 8 * TICK]
  {
    var s0 := First();
    s := ToFound(NoHistory(), s0, 0);
    s := LanTrip(s0, s, PATH, 1, 0, 2 * TICK);
    assert Median(s.r.route.tunnel, 8 * TICK, POLICY).None?;
    Continue(s0, s, RejectPrepare(PATH, Word(Prepare), 8 * TICK, 8 * TICK));
    RefusalResult(s, 8 * TICK, 8 * TICK);
    s := After(s, RejectPrepare(PATH, Word(Prepare), 8 * TICK, 8 * TICK));
  }

  /** A leader that proposes the token from the first second to the fifth. */
  function Proposer(): Ledger {
    NoLedger().(proposed := map[TOKEN := 8 * TICK], prepares := {Sent(TOKEN, 8 * TICK), Sent(TOKEN, 40 * TICK)})
  }

  /** A restart forgets the retired tokens. The follower retires a token, starts anew,
      and takes up the same token when the leader, who has not given up, proposes it
      again. */
  lemma RestartForgets() returns (before: State, after: State)
    ensures Fit(before) && Fit(after)
    ensures Reached(First(), before) && TOKEN in before.h.ledger.gone && before.h.event.latest <= 16 * TICK
    ensures Reached(Started(before.h, 16 * TICK), after) && after.h.event.opening == Some(TOKEN) && after.r.route.trial == TOKEN
    ensures after.h.boot == 16 * TICK && after.h.event.latest == 40 * TICK && before.h.ledger.told == map[TOKEN := 8 * TICK]
    ensures PreparesFit(Proposer()) && Sent(TOKEN, after.h.event.latest) in Proposer().prepares
  {
    before := ToRefused();
    FirstIsFit();
    ReachedIsFit(First(), before);
    after := ToPrepared(before.h, Started(before.h, 16 * TICK), 16 * TICK);
    FitBequeaths(before, 16 * TICK);
    StartFits(OWN, ZERO_KEY, before.h, 16 * TICK);
    ReachedIsFit(Started(before.h, 16 * TICK), after);
  }

  ghost predicate OnTrial(s: State) {
    var r := s.r.route;
    && s.h.boot == 0 && r.phase == Trial && r.selected == Some(PATH) && r.trial == TOKEN && r.since == 24 * TICK && r.baseline == 4 * TICK
    && r.committed && r.resumed.None? && TOKEN in s.h.trips.bases && r.tunnel.since == Some(24 * TICK)
  }

  lemma Commits(s0: State, s: State, now: Time) returns (s': State)
    requires Reached(s0, s) && Quiet(s, now, 9) && s.r.route.phase == Prepared && s.r.route.selected == Some(PATH) && s.r.route.trial == TOKEN
    requires s.r.route.since == now && Fresh(s, PATH, now)
    ensures Reached(s0, s') && Quiet(s', now, 9) && s'.paths == s.paths && s'.h.trips.bases == s.h.trips.bases && s'.h.boot == s.h.boot
    ensures s'.r.route == s.r.route.(phase := Trial, since := now, resumed := None, tunnel := Measurements(Some(now), []), lastTunnel := None, committed := true)
  {
    Continue(s0, s, GetCommit(PATH, Word(Commit), now));
    s' := After(s, GetCommit(PATH, Word(Commit), now));
  }

  /** Committed: the trial begins. */
  lemma ToTrial() returns (s: State)
    ensures Reached(First(), s) && Quiet(s, 24 * TICK, 9) && OnTrial(s) && s.r.route.tunnel.samples == []
    ensures Paths(s, 0, 0, 0, 20 * TICK, 0, 0, 21 * TICK, 3)
  {
    s := ToPrepared(NoHistory(), First(), 0);
    s := Commits(First(), s, 24 * TICK);
  }

  /** The tunnel measured, both paths kept alive. */
  lemma ToTried() returns (s: State)
    ensures Reached(First(), s) && Quiet(s, 33 * TICK, 14) && OnTrial(s)
    ensures s.r.route.lastTunnel == Some(30 * TICK) && Steady(s.r.route.tunnel, 2 * TICK, 3, 26 * TICK, 3)
    ensures Paths(s, 0, 0, 0, 32 * TICK, 0, 0, 33 * TICK, 4)
  {
    s := ToTrial();
    s := TunnelTrips(First(), s, 0, 9, 24 * TICK, 2 * TICK);
    s := LanStep(First(), s, PATH, 0, 2 * TICK, 0, 30 * TICK, 3, 20 * TICK, 12, 30 * TICK);
    s := LanStep(First(), s, OTHER, 0, TICK, 0, 30 * TICK, 3, 21 * TICK, 13, 32 * TICK);
  }

  lemma Keeps(s0: State, s: State, next: Token, now: Time) returns (s': State)
    requires Reached(s0, s) && Quiet(s, now, next) && s.r.route.phase == Trial && s.r.route.selected == Some(PATH) && s.r.route.trial == TOKEN
    requires Fresh(s, PATH, now)
    ensures Reached(s0, s') && Quiet(s', now, next) && s'.paths == s.paths && s'.h.trips == s.h.trips && s'.h.boot == s.h.boot
    ensures s'.r.route == s.r.route.(remoteGood := true, remoteAt := now)
  {
    Continue(s0, s, GetKeep(PATH, Word(Keep), now));
    s' := After(s, GetKeep(PATH, Word(Keep), now));
  }

  /** The path measured, and the other side content. */
  lemma ToConfirmed() returns (s: State)
    ensures Reached(First(), s) && Quiet(s, 48 * TICK, 17) && OnTrial(s)
    ensures s.r.route.remoteGood && s.r.route.remoteAt == 48 * TICK
    ensures s.r.route.lastTunnel == Some(30 * TICK) && Steady(s.r.route.tunnel, 2 * TICK, 3, 26 * TICK, 3)
    ensures Paths(s, 0, 3, 44 * TICK, 48 * TICK, 0, 0, 33 * TICK, 7)
  {
    s := ToTried();
    s := LanTrips(First(), s, PATH, 0, 2 * TICK, 4, 32 * TICK, 14, 42 * TICK);
    s := Keeps(First(), s, 17, 48 * TICK);
  }

  ghost predicate OnActive(s: State) {
    var r := s.r.route;
    && s.h.boot == 0 && r.phase == Active && r.selected == Some(PATH) && r.trial == TOKEN
    && s.cooldown == 56 * TICK && r.tunnel.since == Some(24 * TICK)
  }

  /** Better on both sides: the route is active. */
  lemma ToActive() returns (s: State)
    ensures Reached(First(), s) && Quiet(s, 48 * TICK, 17) && OnActive(s) && Steady(s.r.route.tunnel, 2 * TICK, 0, 0, 3)
    ensures Paths(s, 0, 3, 44 * TICK, 48 * TICK, 0, 0, 33 * TICK, 7)
  {
    s := ToConfirmed();
    SteadyMedian(s.r.route.tunnel, 2 * TICK, 26 * TICK, 3, 48 * TICK);
    Continue(First(), s, Activate(48 * TICK));
    s := After(s, Activate(48 * TICK));
  }

  /** The other path is the better one now. */
  lemma ToBetter() returns (s: State)
    ensures Reached(First(), s) && Quiet(s, 57 * TICK, 23) && OnActive(s)
    ensures Median(s.r.route.tunnel, 57 * TICK, POLICY) == Some(2 * TICK)
    ensures LanMedian(s.paths, PATH, 57 * TICK, POLICY) == Some(2 * TICK) && LanMedian(s.paths, OTHER, 57 * TICK, POLICY) == Some(TICK)
    ensures Paths(s, 0, 3, 44 * TICK, 48 * TICK, 3, 49 * TICK, 51 * TICK, 10)
  {
    s := ToActive();
    s := LanTrips(First(), s, OTHER, 0, TICK, 7, 33 * TICK, 17, 48 * TICK);
    s := TunnelTrips(First(), s, 3, 20, 51 * TICK, 2 * TICK);
    SteadyMedian(s.r.route.tunnel, 2 * TICK, 53 * TICK, 6, 57 * TICK);
    LanSteady(s.paths, PATH, 0, 2 * TICK, 44 * TICK, 7, 48 * TICK, 57 * TICK);
    LanSteady(s.paths, OTHER, 0, TICK, 49 * TICK, 10, 51 * TICK, 57 * TICK);
  }

  /** A second copy of the proposal arrives on another path. The token of the active
      route was never retired, so it opens a replacement. */
  lemma ActiveTokenReplaces() returns (s: State)
    ensures Reached(First(), s) && Fit(s) && s.r.route.phase == Active && s.r.route.selected == Some(PATH)
    ensures s.r.replacement.Some? && s.r.replacement.value.token == s.r.route.trial && s.r.replacement.value.path == OTHER
  {
    s := ToBetter();
    Better(s.paths, s.r.route, OTHER, 57 * TICK, 2 * TICK, TICK, 2 * TICK);
    s := Accepts(First(), s, 23, OTHER, 24 * TICK, 57 * TICK);
    FirstIsFit();
    ReachedIsFit(First(), s);
  }
}
