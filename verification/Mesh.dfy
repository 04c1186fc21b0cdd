/** The state one daemon keeps for one peer (mesh.go, psk.go), as values: what its
    fields must satisfy between two steps. */
module Mesh {
  import opened Common
  import opened Measure
  import opened Story
  import Sessions

  /** A path is an object of its own: one interface and one remote address. */
  type Path = nat

  datatype Phase = Idle | Preparing | Prepared | Trial | Active

  datatype Route = Route(
    selected: Option<Path>, phase: Phase, trial: Token, since: Time, resumed: Option<Time>, baseline: Time,
    localGood: bool, remoteGood: bool, committed: bool, remoteRekey: bool,
    tunnel: Measurements, lastTunnel: Option<Time>, remoteAt: Time)
  {
    predicate Installed() {
      phase == Trial || phase == Active
    }

    /** The last sign of life: a tunnel reply, the start of the route or a rollback to it. */
    function Last(): Time {
      var last := if lastTunnel.Some? then lastTunnel.value else since;
      if resumed.Some? && last < resumed.value then resumed.value else last
    }
  }

  datatype Proposal = Proposal(path: Path, phase: Phase, token: Token, since: Time, baseline: Time, remoteRekey: bool)

  datatype Stage = Offering | Waiting | Confirmed | Observing

  datatype Transition = Transition(
    key: Key, stage: Stage, token: Token, since: Time, appliedAt: Time, handshake: Time, finishedAt: Time,
    remoteApplied: bool, remoteObserved: Option<Time>)

  datatype Probe = Probe(path: Option<Path>, at: Time, session: nat, measure: bool)

  /** What is known of a path. `scoped`: a link-local IPv6 address, never installed. */
  datatype Lan = Lan(scoped: bool, session: nat, lastPong: Option<Time>, stats: Measurements)

  predicate FreshAt(paths: map<Path, Lan>, path: Path, now: Time, failure: Time) {
    path in paths && paths[path].lastPong.Some? && now - paths[path].lastPong.value < failure
  }

  function LanMedian(paths: map<Path, Lan>, path: Path, now: Time, c: Config): Option<Time>
    requires c.Legal()
  {
    if path in paths then Median(paths[path].stats, now, c) else None
  }

  /** What the controller has installed for the peer. */
  datatype Managed = Managed(psk: Key, path: Path)

  /** The Rosenpass process behind a key file. */
  datatype Status = Status(instance: nat, generation: nat)
  datatype Reading = Reading(key: Key, status: Option<Status>)

  const MAX_RETIRED := 1024
  const RETIRED: Time := Sessions.LIFETIME + 3 * MINUTE
  const OBSERVATION: Time := 150 * SECOND
  const MAX_TRIAL: Time := 2 * MINUTE
  const MAX_PENDING := 2048
  const MAX_PATHS := 16

  /* ----- which parts may coexist ----- */

  /** At most one of a pending replacement, a saved previous route and a rekey. */
  ghost predicate Shape(leader: bool, r: Route, replacement: Option<Proposal>, previous: Option<Route>, rekey: Option<Transition>, completed: Option<Transition>) {
    && (r.phase == Idle <==> r.selected.None?) && (r.phase == Idle <==> r.trial == NO_TOKEN)
    && r.phase != (if leader then Prepared else Preparing)
    && (replacement.Some? ==>
          && r.phase == Active && previous.None? && rekey.None?
          && r.selected != Some(replacement.value.path) && replacement.value.token != NO_TOKEN
          && replacement.value.phase == if leader then Preparing else Prepared)
    && (previous.Some? ==>
          && r.phase == Trial && rekey.None? && previous.value.phase == Active
          && previous.value.selected.Some? && previous.value.selected != r.selected && previous.value.trial != NO_TOKEN)
    && (rekey.Some? ==> r.phase == Active)
    && (completed.Some? ==> r.Installed())
  }

  /** The controller manages the peer exactly while a route is installed, with the
      daemon's key and on the selected path. */
  ghost predicate Controlled(managed: Option<Managed>, psk: Key, r: Route) {
    match managed
    case None => !r.Installed()
    case Some(m) => r.Installed() && m.psk == psk && r.selected == Some(m.path)
  }

  /** The controller's operations, as the daemon knows them: an unmanaged peer is
      added, of a managed one only the endpoint changes and only under the recorded key;
      or the peer is given up; or only its key changes, and only from the recorded one.
      Any other failure can leave anything. */
  ghost predicate Applies(was: Option<Managed>, key: Key, path: Path, ok: bool, now: Option<Managed>) {
    && (was.Some? && was.value.psk != key ==> !ok && now == was)
    && (ok ==> now == Some(Managed(key, path)))
  }

  ghost predicate Restores(ok: bool, now: Option<Managed>) {
    ok ==> now.None?
  }

  ghost predicate Rekeys(was: Option<Managed>, from: Key, key: Key, ok: bool, now: Option<Managed>) {
    && (was.None? || was.value.psk != from ==> !ok && now == was)
    && (ok ==> was.Some? && now == Some(was.value.(psk := key)))
  }

  /* ----- what the flags stand for ----- */

  ghost predicate RouteFacts(h: Past, r: Route) {
    && (r.Installed() ==> Tried(h.installed, r.trial))
    && (r.localGood ==> r.Installed() && r.trial in h.improved)
    && (r.remoteGood ==> r.Installed() && Fact(Keep, r.trial) in h.heard)
    && (r.committed ==> Fact(Commit, r.trial) in h.heard || Fact(Committed, r.trial) in h.heard)
    && (r.phase == Active ==> r.committed && r.trial in h.activated)
  }

  ghost predicate RekeyFacts(h: Past, psk: Key, x: Transition) {
    && (x.stage == Observing ==> psk == x.key && Install(x.token, x.key) in h.rekeyed)
    && (x.remoteObserved.Some? ==> x.stage == Observing)
    && (x.remoteObserved.Some? ==> Proof(RekeyObserved, x.token, x.key) in h.proven || Proof(RekeyFinished, x.token, x.key) in h.proven)
  }

  ghost predicate Facts(h: Past, psk: Key, r: Route, previous: Option<Route>, rekey: Option<Transition>, completed: Option<Transition>) {
    && RouteFacts(h, r) && (r.phase == Trial ==> Install(r.trial, psk) in h.installed)
    && (previous.Some? ==> RouteFacts(h, previous.value))
    && (rekey.Some? ==> RekeyFacts(h, psk, rekey.value))
    && (completed.Some? ==> Install(completed.value.token, completed.value.key) in h.finished * h.rekeyed)
  }

  /* ----- tokens and their times ----- */

  datatype Sent = Sent(token: Token, at: Time)

  /** When the leader chose a token and sent its proposals, when the leader had
      sent the proposal that the follower first heard, which tokens were used for
      a route, in which event a token was last retired, and the same for the
      tokens that only earlier processes retired. */
  datatype Ledger = Ledger(
    proposed: map<Token, Time>, prepares: set<Sent>, told: map<Token, Time>, used: set<Token>, gone: map<Token, Time>,
    forgotten: map<Token, Time>)

  function NoLedger(): Ledger {
    Ledger(map[], {}, map[], {}, map[], map[])
  }

  /** A proposal is repeated for less than a minute. */
  ghost predicate PreparesFit(l: Ledger) {
    forall s :: s in l.prepares ==> s.token in l.proposed && l.proposed[s.token] <= s.at < l.proposed[s.token] + MINUTE
  }

  predicate Current(r: Route, replacement: Option<Proposal>, previous: Option<Route>, t: Token) {
    r.trial == t || (replacement.Some? && replacement.value.token == t) || (previous.Some? && previous.value.trial == t)
  }

  /** No token is lost: one that was ever used is current or was retired. */
  ghost predicate NoneLost(l: Ledger, r: Route, replacement: Option<Proposal>, previous: Option<Route>) {
    forall t :: t in l.used ==> t != NO_TOKEN && (t in l.gone || Current(r, replacement, previous, t))
  }

  /** A follower heard of every token it used or retired, before it retired it. */
  ghost predicate GoneTold(leader: bool, l: Ledger, clock: Time) {
    && (forall t :: t in l.gone ==> l.gone[t] <= clock)
    && (!leader ==>
          && (forall t :: t in l.told ==> l.told[t] <= clock)
          && (forall t :: t in l.gone ==> t in l.told && l.told[t] <= l.gone[t]))
  }

  /** So it did of those that earlier processes retired, before this one started. */
  ghost predicate ForgottenTold(leader: bool, l: Ledger, boot: Time) {
    forall t :: t in l.forgotten ==> l.forgotten[t] <= boot && (!leader ==> t in l.told && l.told[t] <= l.forgotten[t])
  }

  ghost predicate Known(leader: bool, l: Ledger, t: Token) {
    t in l.used && (leader || t in l.told)
  }

  /** Current tokens were taken up and, at the follower, heard of. */
  ghost predicate CurrentKnown(leader: bool, l: Ledger, r: Route, replacement: Option<Proposal>, previous: Option<Route>) {
    && (r.trial != NO_TOKEN ==> Known(leader, l, r.trial))
    && (replacement.Some? ==> Known(leader, l, replacement.value.token))
    && (previous.Some? ==> Known(leader, l, previous.value.trial))
  }

  /** A pending proposal is dated by its first message. */
  ghost predicate ProposedFit(l: Ledger, r: Route, replacement: Option<Proposal>, latest: Time) {
    && (forall t :: t in l.proposed ==> l.proposed[t] <= latest)
    && (r.phase == Preparing ==> r.trial in l.proposed && l.proposed[r.trial] == r.since)
    && (replacement.Some? && replacement.value.phase == Preparing ==>
          replacement.value.token in l.proposed && l.proposed[replacement.value.token] == replacement.value.since)
  }

  /** The cache still refuses a token that was retired at the given time, unless
      the retention period is over. */
  ghost predicate Remembered(retired: map<Token, Time>, until: Time, latest: Time, t: Token, at: Time) {
    (t in retired && retired[t] >= at + RETIRED) || until >= at + RETIRED || latest >= at + RETIRED
  }

  /** The bounded cache refuses what an unbounded one would. */
  ghost predicate Cached(retired: map<Token, Time>, until: Time, latest: Time, gone: map<Token, Time>) {
    |retired| <= MAX_RETIRED && until <= latest + RETIRED && (forall t :: t in retired ==> t in gone)
    && forall t :: t in gone ==> Remembered(retired, until, latest, t, gone[t])
  }

  /* ----- tunnel measurements ----- */

  /** A tunnel ping: the installation in force when it was sent, its session and when. */
  datatype Trip = Trip(era: nat, session: nat, at: Time)

  /** All tunnel pings; the numbers of the current installation, the previous one and the
      next one; the token of each installation; and for each token the statistics
      read when it was proposed or accepted. */
  datatype Trips = Trips(
    pings: map<Token, Trip>, now: nat, before: nat, next: nat, tokens: map<nat, Token>, bases: map<Token, Taken>)

  function NoTrips(): Trips {
    Trips(map[], 0, 0, 1, map[], map[])
  }

  /** The sample is the round trip of a ping under the given installation, on the
      ping's own session. */
  ghost predicate Answer(s: Sample, pings: map<Token, Trip>, era: nat) {
    s.ping in pings && pings[s.ping] == Trip(era, s.session, s.at - s.rtt)
  }

  ghost predicate Answers(samples: seq<Sample>, pings: map<Token, Trip>, era: nat, pending: map<Token, Probe>) {
    && Distinct(samples)
    && forall i :: 0 <= i < |samples| ==> Answer(samples[i], pings, era) && samples[i].ping !in pending
  }

  /** Every sample of a route answers a different ping that was sent while that
      same installation was in force. */
  ghost predicate Measured(tunnel: Measurements, previous: Option<Route>, pending: map<Token, Probe>, trips: Trips) {
    && trips.now < trips.next && trips.before < trips.next
    && (forall t :: t in trips.pings ==> trips.pings[t].era < trips.next)
    && (forall t :: t in pending && pending[t].path.None? ==>
          t in trips.pings && trips.pings[t] == Trip(trips.now, pending[t].session, pending[t].at))
    && Answers(tunnel.samples, trips.pings, trips.now, pending)
    && (previous.Some? ==> trips.before != trips.now && Answers(previous.value.tunnel.samples, trips.pings, trips.before, pending))
  }

  /* ----- improvements ----- */

  /** The number is the median of the statistics, and these hold the answers to
      different pings sent under the installation they were read under. */
  ghost predicate Reads(x: Taken, v: Time, c: Config, pings: map<Token, Trip>) {
    && c.Legal() && Median(x.tunnel, x.at, c) == Some(v) && Distinct(x.tunnel.samples)
    && forall i :: 0 <= i < |x.tunnel.samples| ==> Answer(x.tunnel.samples[i], pings, x.era)
  }

  /** The median of the token's own trial improves on the median read when the token
      was proposed, under an earlier installation. */
  ghost predicate RealGain(g: Gain, t: Token, c: Config, trips: Trips) {
    && Reads(g.before, g.baseline, c, trips.pings) && Reads(g.trial, g.rtt, c, trips.pings) && Improves(g.rtt, g.baseline, c)
    && g.before.era < g.trial.era && g.trial.era in trips.tokens && trips.tokens[g.trial.era] == t
  }

  ghost predicate GainAt(improved: map<Token, Gain>, c: Config, trips: Trips, t: Token) {
    t in improved ==> RealGain(improved[t], t, c, trips)
  }

  ghost predicate GainsFit(improved: map<Token, Gain>, c: Config, trips: Trips) {
    && (forall t {:trigger GainAt(improved, c, trips, t)} :: GainAt(improved, c, trips, t))
    && (forall e :: e in trips.tokens ==> e < trips.next)
    && (forall t :: t in trips.bases ==> trips.bases[t].era < trips.next)
  }

  /** The baseline of a token is the one read when it was proposed. */
  ghost predicate BaseFits(c: Config, trips: Trips, t: Token, baseline: Time) {
    t in trips.bases && Reads(trips.bases[t], baseline, c, trips.pings)
  }

  /** Pending tokens have their baselines, and installed ones their installations. */
  ghost predicate Based(c: Config, trips: Trips, r: Route, replacement: Option<Proposal>, previous: Option<Route>) {
    && (r.phase != Idle && r.phase != Active ==> BaseFits(c, trips, r.trial, r.baseline))
    && (replacement.Some? ==> BaseFits(c, trips, replacement.value.token, replacement.value.baseline))
    && (r.phase == Trial && r.trial in trips.bases ==> trips.bases[r.trial].era < trips.now)
    && (r.Installed() ==> trips.now in trips.tokens && trips.tokens[trips.now] == r.trial)
    && (previous.Some? ==> trips.before in trips.tokens && trips.tokens[trips.before] == previous.value.trial)
  }

  /* ----- the whole ----- */

  /* ----- keeps and holds ----- */

  /** What the peer thought of a trial, on the path it said so, and when a trial was
      made active, in order. */
  datatype Entry = Vote(token: Token, path: Path, keep: bool, at: Time) | Made(token: Token, path: Path, at: Time)

  predicate VoteOn(x: Entry, t: Token, path: Path) {
    x.Vote? && x.token == t && x.path == path
  }

  /** The last word of the peer on a token and path. */
  function LastVote(log: seq<Entry>, t: Token, path: Path): Option<Entry> {
    if log == [] then None
    else if VoteOn(log[|log| - 1], t, path) then Some(log[|log| - 1])
    else LastVote(log[..|log| - 1], t, path)
  }

  /** A trial counts as good at the peer only while the peer's last word is a keep. */
  ghost predicate Standing(r: Route, log: seq<Entry>) {
    r.phase == Trial && r.remoteGood ==>
      r.selected.Some? && LastVote(log, r.trial, r.selected.value) == Some(Vote(r.trial, r.selected.value, true, r.remoteAt))
  }

  /** When a trial was made active, the peer's last word was a recent keep. */
  ghost predicate MadeRightly(log: seq<Entry>, failure: Time, i: nat) {
    i < |log| && log[i].Made? ==>
      var x := LastVote(log[..i], log[i].token, log[i].path);
      x.Some? && x.value.Vote? && x.value.keep && log[i].at - x.value.at < failure
  }

  ghost predicate Logged(activated: set<Token>, log: seq<Entry>, failure: Time) {
    && (forall i {:trigger MadeRightly(log, failure, i)} :: MadeRightly(log, failure, i))
    && (forall t :: t in activated ==> exists i :: 0 <= i < |log| && log[i].Made? && log[i].token == t)
  }

  lemma LogGrows(activated: set<Token>, log: seq<Entry>, failure: Time, x: Entry)
    requires Logged(activated, log, failure)
    requires x.Made? ==> MadeRightly(log + [x], failure, |log|)
    ensures Logged(if x.Made? then activated + {x.token} else activated, log + [x], failure)
  {
    var more := log + [x];
    forall i: nat ensures MadeRightly(more, failure, i) {
      assert MadeRightly(log, failure, i);
      assert i < |log| ==> more[..i] == log[..i];
    }
    forall t | t in activated ensures exists i :: 0 <= i < |more| && more[i].Made? && more[i].token == t {
      var i :| 0 <= i < |log| && log[i].Made? && log[i].token == t;
      assert more[i] == log[i];
    }
    assert x.Made? ==> more[|log|] == x;
  }

  lemma LastVoteExtends(log: seq<Entry>, x: Entry, t: Token, path: Path)
    ensures LastVote(log + [x], t, path) == if VoteOn(x, t, path) then Some(x) else LastVote(log, t, path)
  {
    assert (log + [x])[..|log|] == log;
  }

  /** The last vote stands in the log, with no later one on the same token and path. */
  lemma {:induction false} LastVoteIsLast(log: seq<Entry>, t: Token, path: Path)
    ensures var x := LastVote(log, t, path);
      if x.None? then forall k :: 0 <= k < |log| ==> !VoteOn(log[k], t, path)
      else VoteOn(x.value, t, path) && exists j :: 0 <= j < |log| && log[j] == x.value && forall k :: j < k < |log| ==> !VoteOn(log[k], t, path)
    decreases |log|
  {
    if log != [] && !VoteOn(log[|log| - 1], t, path) {
      var init := log[..|log| - 1];
      LastVoteIsLast(init, t, path);
      var x := LastVote(log, t, path);
      if x.Some? {
        var j :| 0 <= j < |init| && init[j] == x.value && forall k :: j < k < |init| ==> !VoteOn(init[k], t, path);
        assert log[j] == x.value && forall k :: j < k < |log| ==> !VoteOn(log[k], t, path);
      }
    }
  }

  /** The token was made active once the peer had said keep on the path, less than
      `failure` before, and had said nothing else about it since. */
  ghost predicate KeptBefore(log: seq<Entry>, failure: Time, t: Token, j: nat, i: nat) {
    && j < i < |log| && log[i].Made? && log[i].token == t
    && VoteOn(log[j], t, log[i].path) && log[j].keep && log[i].at - log[j].at < failure
    && forall k :: j < k < i ==> !VoteOn(log[k], t, log[i].path)
  }

  lemma ActivatedOnKeep(activated: set<Token>, log: seq<Entry>, failure: Time, t: Token)
    requires Logged(activated, log, failure) && t in activated
    ensures exists j: nat, i: nat :: KeptBefore(log, failure, t, j, i)
  {
    var i: nat :| i < |log| && log[i].Made? && log[i].token == t;
    assert MadeRightly(log, failure, i);
    var init := log[..i];
    LastVoteIsLast(init, t, log[i].path);
    var x := LastVote(init, t, log[i].path);
    var j: nat :| j < |init| && init[j] == x.value && forall k :: j < k < |init| ==> !VoteOn(init[k], t, log[i].path);
    assert forall k :: j < k < i ==> init[k] == log[k];
    assert KeptBefore(log, failure, t, j, i);
  }

  datatype Settings = Settings(c: Config, leader: bool, file: bool, rekeyOn: bool)

  datatype Routes = Routes(
    route: Route, replacement: Option<Proposal>, previous: Option<Route>, rekey: Option<Transition>, completed: Option<Transition>,
    psk: Key)

  datatype Cache = Cache(retired: map<Token, Time>, until: Time)

  /** The packet or tick being handled: when it arrived, the latest time read since,
      its message, the tokens retired before it, when its proposal was let through
      and the token it opened a transaction with. */
  datatype Event = Event(
    clock: Time, latest: Time, message: Option<Message>, before: map<Token, Time>, admitted: Option<Time>, opening: Option<Token>)

  /** The record of a run, and when the present process started. The code never reads it. */
  datatype History = History(past: Past, ledger: Ledger, trips: Trips, event: Event, boot: Time, log: seq<Entry>)

  datatype State = State(
    own: Settings, r: Routes, k: Cache, cooldown: Time, paths: map<Path, Lan>, pending: map<Token, Probe>, h: History)

  /** A follower only stands by proposals it accepted. */
  ghost predicate PreparedFit(h: Past, r: Route, replacement: Option<Proposal>) {
    && (r.phase == Prepared ==> r.trial in h.prepared)
    && (replacement.Some? && replacement.value.phase == Prepared ==> replacement.value.token in h.prepared)
  }

  ghost predicate HeardFit(h: Past, message: Option<Message>) {
    message.Some? ==>
      message.value.token != NO_TOKEN && Fact(message.value.op, message.value.token) in h.heard
      && Proof(message.value.op, message.value.token, message.value.key) in h.proven
  }

  /** Exclusivity, and what stands behind every flag. */
  ghost predicate Sound(own: Settings, r: Routes, past: Past, message: Option<Message>) {
    && Shape(own.leader, r.route, r.replacement, r.previous, r.rekey, r.completed)
    && Facts(past, r.psk, r.route, r.previous, r.rekey, r.completed)
    && PreparedFit(past, r.route, r.replacement) && HeardFit(past, message)
  }

  /** A proposal is let through only when the retention of its token is over. */
  ghost predicate EventFit(l: Ledger, e: Event) {
    && e.clock <= e.latest
    && (e.message.Some? && e.message.value.op == Prepare ==> e.message.value.token in l.told)
    && (e.admitted.Some? ==>
          && e.message.Some? && e.message.value.op == Prepare && e.admitted.value <= e.latest
          && (e.message.value.token in e.before ==> e.admitted.value >= e.before[e.message.value.token] + RETIRED))
    && (e.opening.Some? ==> e.admitted.Some? && e.opening == Some(e.message.value.token))
  }

  ghost predicate Dated(own: Settings, r: Routes, k: Cache, l: Ledger, e: Event, boot: Time) {
    && PreparesFit(l) && EventFit(l, e) && boot <= e.clock && ForgottenTold(own.leader, l, boot)
    && GoneTold(own.leader, l, e.clock) && CurrentKnown(own.leader, l, r.route, r.replacement, r.previous)
    && NoneLost(l, r.route, r.replacement, r.previous) && ProposedFit(l, r.route, r.replacement, e.latest)
    && Cached(k.retired, k.until, e.latest, l.gone)
  }

  datatype Aspect = Protocol | Words | Tokens | Measures | Replies | Gains | Votes

  ghost predicate Holds(a: Aspect, s: State) {
    match a
    case Protocol => Sound(s.own, s.r, s.h.past, s.h.event.message)
    case Words => s.own.c.Legal() && Honest(s.own.leader, s.h.past)
    case Tokens => Dated(s.own, s.r, s.k, s.h.ledger, s.h.event, s.h.boot)
    case Measures => Measured(s.r.route.tunnel, s.r.previous, s.pending, s.h.trips)
    case Replies => forall x :: x in s.paths && s.paths[x].lastPong.Some? ==> s.paths[x].lastPong.value <= s.h.event.clock
    case Gains =>
      GainsFit(s.h.past.improved, s.own.c, s.h.trips) && Based(s.own.c, s.h.trips, s.r.route, s.r.replacement, s.r.previous)
    case Votes => Logged(s.h.past.activated, s.h.log, s.own.c.failure) && Standing(s.r.route, s.h.log)
  }

  /** What every reachable state satisfies. */
  ghost predicate Fit(s: State) {
    forall a {:trigger Holds(a, s)} :: Holds(a, s)
  }

  /** No deadline moves: an installed or prepared route, a pending replacement and a key
      transition that outlive a message keep the times their deadlines count from. */
  predicate Undelayed(r: Route, r': Route, x: Option<Proposal>, x': Option<Proposal>, y: Option<Transition>, y': Option<Transition>) {
    r'.phase != Idle ==>
      && (r'.phase == r.phase && r'.trial == r.trial ==>
            r'.since == r.since && r'.lastTunnel == r.lastTunnel && r'.resumed == r.resumed)
      && (x'.Some? ==> x.Some? && x'.value.token == x.value.token && x'.value.since == x.value.since)
      && (y'.Some? && y.Some? ==>
            && y'.value.key == y.value.key && y'.value.since == y.value.since
            && (y.value.stage == Observing ==> y'.value.stage == Observing && y'.value.appliedAt == y.value.appliedAt))
  }

  /** What a daemon that starts again still has to answer for. */
  function Inherited(l: Ledger): Ledger {
    Ledger(l.proposed, l.prepares, l.told, {}, map[],
           map t | t in l.gone.Keys + l.forgotten.Keys :: if t in l.gone then l.gone[t] else l.forgotten[t])
  }

  function NoHistory(): History {
    History(NoPast(), NoLedger(), NoTrips(), Event(0, 0, None, map[], None, None), 0, [])
  }

  function NewHistory(h: History, now: Time): History {
    History(h.past, Inherited(h.ledger), h.trips.(now := h.trips.next, next := h.trips.next + 1), Event(now, now, None, map[], None, None), now, h.log)
  }

  /** What a process leaves to the next. */
  ghost predicate Bequeaths(own: Settings, h: History, now: Time) {
    && own.c.Legal() && Honest(own.leader, h.past) && GainsFit(h.past.improved, own.c, h.trips)
    && (forall t :: t in h.trips.pings ==> h.trips.pings[t].era < h.trips.next) && h.trips.before < h.trips.next
    && PreparesFit(h.ledger) && (forall t :: t in h.ledger.proposed ==> h.ledger.proposed[t] <= now) && 0 <= now
    && GoneTold(own.leader, h.ledger, now) && ForgottenTold(own.leader, h.ledger, now)
    && Logged(h.past.activated, h.log, own.c.failure)
  }

  const NEW_ROUTE := Route(None, Idle, NO_TOKEN, 0, None, 0, false, false, false, false, Measurements(None, []), None, 0)

  function NewState(own: Settings, psk: Key, h: History, now: Time): State {
    State(own, Routes(NEW_ROUTE, None, None, None, None, psk), Cache(map[], 0), 0, map[], map[], NewHistory(h, now))
  }

  lemma StartFits(own: Settings, psk: Key, h: History, now: Time)
    requires Bequeaths(own, h, now)
    ensures Fit(NewState(own, psk, h, now))
  {
    var s := NewState(own, psk, h, now);
    forall a ensures Holds(a, s) {
      if a == Gains {
        assert forall t :: GainAt(h.past.improved, own.c, h.trips, t) ==> GainAt(h.past.improved, own.c, s.h.trips, t);
      }
    }
  }

  lemma FitBequeaths(s: State, now: Time)
    requires Fit(s) && s.h.event.latest <= now && 0 <= now
    ensures Bequeaths(s.own, s.h, now)
  {
    assert Holds(Words, s) && Holds(Tokens, s) && Holds(Measures, s) && Holds(Gains, s) && Holds(Votes, s);
  }
}
