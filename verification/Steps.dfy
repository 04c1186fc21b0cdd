/** The single steps that every operation of mesh.go and psk.go is made of: their
    effect on a peer and its history, and that they keep what every state satisfies. */
module Steps {
  import opened Common
  import opened Measure
  import opened Story
  import opened Mesh

  /** A time read while the current event is handled. */
  ghost predicate Now(h: History, now: Time) {
    h.event.clock <= now <= h.event.latest
  }

  /* ----- one aspect at a time ----- */

  lemma AllHold(s: State)
    requires Holds(Protocol, s) && Holds(Words, s) && Holds(Tokens, s) && Holds(Measures, s) && Holds(Replies, s) && Holds(Gains, s)
    requires Holds(Votes, s)
    ensures Fit(s)
  {
    forall a ensures Holds(a, s) {
      match a
      case Protocol => case Words => case Tokens => case Measures => case Replies => case Gains => case Votes =>
    }
  }

  /** Aspects whose parts are the same hold as before. */
  lemma OthersHold(s: State, s': State)
    requires Fit(s) && s'.own == s.own
    ensures s'.h.past == s.h.past ==> Holds(Words, s')
    ensures s'.paths == s.paths && s'.h.event.clock == s.h.event.clock ==> Holds(Replies, s')
  {
    assert Holds(Words, s) && Holds(Replies, s);
  }

  lemma SameProtocol(s: State, s': State)
    requires Fit(s) && s'.own == s.own && s'.r == s.r && s'.h.past == s.h.past && s'.h.event.message == s.h.event.message
    ensures Holds(Protocol, s')
  {
    assert Holds(Protocol, s);
  }

  lemma SameTokens(s: State, s': State)
    requires Fit(s) && s'.own == s.own && s'.r == s.r && s'.k == s.k
    requires s'.h.ledger == s.h.ledger && s'.h.event == s.h.event && s'.h.boot == s.h.boot
    ensures Holds(Tokens, s')
  {
    assert Holds(Tokens, s);
  }

  lemma SameMeasures(s: State, s': State)
    requires Fit(s) && s'.r.route.tunnel == s.r.route.tunnel && s'.r.previous == s.r.previous && s'.pending == s.pending
    requires s'.h.trips == s.h.trips.(tokens := s'.h.trips.tokens, bases := s'.h.trips.bases)
    ensures Holds(Measures, s')
  {
    assert Holds(Measures, s);
  }

  lemma SameGains(s: State, s': State)
    requires Fit(s) && s'.own == s.own && s'.h.past.improved == s.h.past.improved && s'.h.trips == s.h.trips
    requires s'.r.replacement == s.r.replacement && s'.r.previous == s.r.previous
    requires s'.r.route.phase == s.r.route.phase && s'.r.route.trial == s.r.route.trial && s'.r.route.baseline == s.r.route.baseline
    ensures Holds(Gains, s')
  {
    assert Holds(Gains, s);
  }

  lemma SameVotes(s: State, s': State)
    requires Fit(s) && s'.own == s.own && s'.h.past.activated == s.h.past.activated && s'.h.log == s.h.log
    requires s'.r.route.phase == Trial && s'.r.route.remoteGood ==>
               var r, r' := s.r.route, s'.r.route;
               r.phase == Trial && r.remoteGood && r.trial == r'.trial && r.selected == r'.selected && r.remoteAt == r'.remoteAt
    ensures Holds(Votes, s')
  {
    assert Holds(Votes, s);
  }

  /* ----- events and time ----- */

  function Heard(s: State, m: Message, sentAt: Time, now: Time): State {
    var l := s.h.ledger;
    s.(h := s.h.(past := Hears(s.h.past, m),
                 ledger := if m.op == Prepare && m.token !in l.told then l.(told := l.told[m.token := sentAt]) else l,
                 event := Event(now, now, Some(m), l.gone, None, None)))
  }

  lemma HearKeeps(s: State, m: Message, sentAt: Time, now: Time)
    requires Fit(s) && s.h.event.latest <= now && sentAt <= now && m.token != NO_TOKEN
    ensures Fit(Heard(s, m, sentAt, now))
  {
    var s' := Heard(s, m, sentAt, now);
    forall a ensures Holds(a, s') {
      assert Holds(a, s) && Holds(Tokens, s);
      if a == Words { HearingIsHonest(s.own.leader, s.h.past, m); }
    }
  }

  function Woken(s: State, now: Time): State {
    s.(h := s.h.(event := Event(now, now, None, s.h.ledger.gone, None, None)))
  }

  lemma WakeKeeps(s: State, now: Time)
    requires Fit(s) && s.h.event.latest <= now
    ensures Fit(Woken(s, now))
  {
    forall a ensures Holds(a, Woken(s, now)) { assert Holds(a, s) && Holds(Tokens, s); }
  }

  function Passed(s: State, t: Time): State {
    s.(h := s.h.(event := s.h.event.(latest := if t > s.h.event.latest then t else s.h.event.latest)))
  }

  lemma PassKeeps(s: State, t: Time)
    requires Fit(s)
    ensures Fit(Passed(s, t))
  {
    forall a ensures Holds(a, Passed(s, t)) { assert Holds(a, s); }
  }

  /* ----- words ----- */

  function Spoken(s: State, op: Op, token: Token, key: Key): State {
    s.(h := s.h.(past := Says(s.h.past, op, token, key)))
  }

  function Said(s: State, op: Op, token: Token, now: Time): State {
    var s' := Spoken(s, op, token, s.r.psk);
    if op != Prepare then s' else s'.(h := s'.h.(ledger := s.h.ledger.(prepares := s.h.ledger.prepares + {Sent(token, now)})))
  }

  /** When the code sends a message of the route protocol. */
  ghost predicate SayGuard(c: Config, r: Routes, op: Op, token: Token, now: Time) {
    match op
    case Prepare =>
      || (r.route.phase == Preparing && r.route.trial == token && r.route.since <= now < r.route.since + c.failure)
      || (r.replacement.Some? && r.replacement.value.phase == Preparing && r.replacement.value.token == token
          && r.replacement.value.since <= now < r.replacement.value.since + c.failure)
    case Ready =>
      || (r.route.phase == Prepared && r.route.trial == token)
      || (r.replacement.Some? && r.replacement.value.phase == Prepared && r.replacement.value.token == token)
    case Commit => r.route.phase == Trial && r.route.trial == token
    case Committed => r.route.Installed() && r.route.trial == token
    case Keep => r.route.localGood && r.route.trial == token
    case Hold => true
    case Abort => true
    case _ => false
  }

  lemma SpeakKeeps(s: State, op: Op, token: Token, key: Key)
    requires Fit(s) && MaySay(s.h.past, op, token, key)
    ensures Fit(Spoken(s, op, token, key))
  {
    var s' := Spoken(s, op, token, key);
    assert Holds(Words, s') by { assert Holds(Words, s); SayingIsHonest(s.own.leader, s.h.past, op, token, key); }
    assert Holds(Protocol, s') by { assert Holds(Protocol, s); }
    OthersHold(s, s');
    SameTokens(s, s');
    SameMeasures(s, s');
    SameGains(s, s');
    SameVotes(s, s');
    AllHold(s');
  }

  lemma SayKeeps(s: State, op: Op, token: Token, now: Time)
    requires Fit(s) && SayGuard(s.own.c, s.r, op, token, now)
    ensures Fit(Said(s, op, token, now))
  {
    assert Holds(Protocol, s);
    SpeakKeeps(s, op, token, s.r.psk);
    if op == Prepare {
      var s1, s' := Spoken(s, op, token, s.r.psk), Said(s, op, token, now);
      forall a ensures Holds(a, s') {
        assert Holds(a, s1) && Holds(Words, s);
      }
    }
  }

  /** When the code sends a message about a key transition. */
  ghost predicate RekeyGuard(r: Routes, op: Op, x: Transition) {
    match op
    case RekeyOffer => true
    case RekeyReady => true
    case RekeyCommit => true
    case RekeyApplied => r.rekey == Some(x) && x.stage == Observing
    case RekeyObserved => r.rekey == Some(x) && x.stage == Observing
    case RekeyFinished => r.completed == Some(x)
    case _ => false
  }

  lemma SayRekeyKeeps(s: State, op: Op, x: Transition)
    requires Fit(s) && RekeyGuard(s.r, op, x)
    ensures Fit(Spoken(s, op, x.token, x.key))
  {
    assert Holds(Protocol, s);
    SpeakKeeps(s, op, x.token, x.key);
  }

  /* ----- improvements ----- */

  /** Nothing recorded about pings and installations is lost. */
  ghost predicate TripsGrow(t: Trips, t': Trips) {
    && t.next <= t'.next
    && (forall x :: x in t.pings ==> x in t'.pings && t'.pings[x] == t.pings[x])
    && (forall e :: e in t.tokens ==> e in t'.tokens && t'.tokens[e] == t.tokens[e])
  }

  lemma ReadsStay(x: Taken, v: Time, c: Config, t: Trips, t': Trips)
    requires Reads(x, v, c, t.pings) && TripsGrow(t, t')
    ensures Reads(x, v, c, t'.pings)
  {
    forall i | 0 <= i < |x.tunnel.samples| ensures Answer(x.tunnel.samples[i], t'.pings, x.era) {
      assert Answer(x.tunnel.samples[i], t.pings, x.era);
    }
  }

  lemma GainsStay(improved: map<Token, Gain>, c: Config, t: Trips, t': Trips)
    requires GainsFit(improved, c, t) && TripsGrow(t, t')
    requires forall e :: e in t'.tokens ==> e < t'.next
    requires forall x :: x in t'.bases ==> t'.bases[x].era < t'.next
    ensures GainsFit(improved, c, t')
  {
    forall x ensures GainAt(improved, c, t', x) {
      assert GainAt(improved, c, t, x);
      if x in improved {
        ReadsStay(improved[x].before, improved[x].baseline, c, t, t');
        ReadsStay(improved[x].trial, improved[x].rtt, c, t, t');
      }
    }
  }

  lemma BaseStays(c: Config, t: Trips, t': Trips, token: Token, baseline: Time)
    requires BaseFits(c, t, token, baseline) && TripsGrow(t, t') && token in t'.bases && t'.bases[token] == t.bases[token]
    ensures BaseFits(c, t', token, baseline)
  {
    ReadsStay(t.bases[token], baseline, c, t, t');
  }

  /** The tunnel statistics as they are now. */
  function Snapshot(s: State, now: Time): Taken {
    Taken(s.r.route.tunnel, now, s.h.trips.now)
  }

  lemma SnapshotReads(s: State, now: Time, v: Time)
    requires Fit(s) && s.own.c.Legal() && Median(s.r.route.tunnel, now, s.own.c) == Some(v)
    ensures Reads(Snapshot(s, now), v, s.own.c, s.h.trips.pings) && s.h.trips.now < s.h.trips.next
  {
    assert Holds(Measures, s);
  }

  /* ----- retired tokens ----- */

  function Live(retired: map<Token, Time>, now: Time): map<Token, Time> {
    map t | t in retired && now < retired[t] :: retired[t]
  }

  function WithRetired(k: Cache, token: Token, now: Time): Cache {
    if token == NO_TOKEN then k else
    var live := Live(k.retired, now);
    if |live| >= MAX_RETIRED then Cache(live, now + RETIRED) else k.(retired := live[token := now + RETIRED])
  }

  function Gone(l: Ledger, token: Token, clock: Time): Ledger {
    if token == NO_TOKEN then l else l.(gone := l.gone[token := clock])
  }

  function Retired(s: State, token: Token, now: Time): State {
    s.(k := WithRetired(s.k, token, now), h := s.h.(ledger := Gone(s.h.ledger, token, s.h.event.clock)))
  }

  lemma LiveIsFewer(retired: map<Token, Time>, now: Time)
    ensures |Live(retired, now)| <= |retired|
  {
    SmallerSet(Live(retired, now).Keys, retired.Keys);
  }

  /** Retiring one more token keeps every earlier one refused. */
  lemma RetireCached(k: Cache, l: Ledger, clock: Time, latest: Time, token: Token, now: Time)
    requires clock <= now <= latest && Cached(k.retired, k.until, latest, l.gone) && forall t :: t in l.gone ==> l.gone[t] <= clock
    ensures Cached(WithRetired(k, token, now).retired, WithRetired(k, token, now).until, latest, Gone(l, token, clock).gone)
  {
    LiveIsFewer(k.retired, now);
  }

  lemma RetireDated(own: Settings, r: Routes, k: Cache, l: Ledger, e: Event, boot: Time, token: Token, now: Time)
    requires Dated(own, r, k, l, e, boot) && e.clock <= now <= e.latest && (token == NO_TOKEN || own.leader || token in l.told)
    ensures Dated(own, r, WithRetired(k, token, now), Gone(l, token, e.clock), e, boot)
  {
    RetireCached(k, l, e.clock, e.latest, token, now);
  }

  lemma RetireKeeps(s: State, token: Token, now: Time)
    requires Fit(s) && Now(s.h, now) && (token == NO_TOKEN || s.own.leader || token in s.h.ledger.told)
    ensures Fit(Retired(s, token, now))
  {
    var s' := Retired(s, token, now);
    OthersHold(s, s');
    SameProtocol(s, s');
    SameMeasures(s, s');
    SameGains(s, s');
    assert Holds(Tokens, s') by {
      assert Holds(Tokens, s);
      RetireDated(s.own, s.r, s.k, s.h.ledger, s.h.event, s.h.boot, token, now);
    }
    SameVotes(s, s');
    AllHold(s');
  }

  /** A saturated cache refuses for longer. */
  lemma ExtendKeeps(s: State, until: Time)
    requires Fit(s) && s.k.until <= until <= s.h.event.latest + RETIRED
    ensures Fit(s.(k := s.k.(until := until)))
  {
    var s' := s.(k := s.k.(until := until));
    forall a ensures Holds(a, s') { assert Holds(a, s); }
  }

  function Cancelled(s: State, now: Time): State
    requires s.r.replacement.Some?
  {
    var token := s.r.replacement.value.token;
    var s' := Retired(Said(s, Abort, token, now), token, now);
    s'.(r := s'.r.(replacement := None), cooldown := now + s.own.c.cooldown)
  }

  lemma CancelKeeps(s: State, now: Time)
    requires Fit(s) && Now(s.h, now) && s.r.replacement.Some?
    ensures Fit(Cancelled(s, now))
  {
    var token := s.r.replacement.value.token;
    var s1 := Said(s, Abort, token, now);
    var s2 := Retired(s1, token, now);
    assert s.own.leader || token in s.h.ledger.told by { assert Holds(Tokens, s); }
    assert token != NO_TOKEN by { assert Holds(Protocol, s); }
    SayKeeps(s, Abort, token, now);
    RetireKeeps(s1, token, now);
    forall a ensures Holds(a, Cancelled(s, now)) {
      assert Holds(a, s2);
    }
  }

  /** The saved previous route is given up. */
  function Forgotten(s: State, now: Time): State {
    if s.r.previous.None? then s else
    var s' := Retired(s, s.r.previous.value.trial, now);
    s'.(r := s'.r.(previous := None))
  }

  lemma ForgetKeeps(s: State, now: Time)
    requires Fit(s) && Now(s.h, now)
    ensures Fit(Forgotten(s, now))
  {
    if s.r.previous.Some? {
      var token := s.r.previous.value.trial;
      assert s.own.leader || token in s.h.ledger.told by { assert Holds(Tokens, s); }
      assert token != NO_TOKEN by { assert Holds(Protocol, s); }
      RetireKeeps(s, token, now);
      forall a ensures Holds(a, Forgotten(s, now)) {
        assert Holds(a, Retired(s, token, now));
      }
    }
  }

  function StableRoute(r: Route, now: Time): Route {
    r.(selected := None, phase := Idle, trial := NO_TOKEN, localGood := false, remoteGood := false,
       committed := false, remoteRekey := false, tunnel := Measurements(Some(now), []), lastTunnel := None)
  }

  function NewEra(t: Trips): Trips {
    t.(now := t.next, next := t.next + 1)
  }

  function Stable(s: State, now: Time): State {
    s.(r := s.r.(route := StableRoute(s.r.route, now), rekey := None, completed := None),
       cooldown := now + s.own.c.cooldown, pending := map[], h := s.h.(trips := NewEra(s.h.trips)))
  }

  function Restored(s: State, now: Time): State {
    Stable(Forgotten(Retired(s, s.r.route.trial, now), now), now)
  }

  lemma RestoreKeeps(s: State, now: Time)
    requires Fit(s) && Now(s.h, now) && s.r.replacement.None?
    ensures Fit(Restored(s, now))
  {
    var s1 := Retired(s, s.r.route.trial, now);
    var s2 := Forgotten(s1, now);
    assert s.r.route.trial == NO_TOKEN || s.own.leader || s.r.route.trial in s.h.ledger.told by { assert Holds(Tokens, s); }
    RetireKeeps(s, s.r.route.trial, now);
    ForgetKeeps(s1, now);
    StableKeeps(s2, now);
  }

  lemma StableKeeps(s: State, now: Time)
    requires Fit(s) && s.r.replacement.None? && s.r.previous.None? && (s.r.route.trial != NO_TOKEN ==> s.r.route.trial in s.h.ledger.gone)
    ensures Fit(Stable(s, now))
  {
    var s' := Stable(s, now);
    assert Holds(Gains, s') by {
      assert Holds(Gains, s);
      GainsStay(s.h.past.improved, s.own.c, s.h.trips, s'.h.trips);
    }
    forall a ensures Holds(a, s') {
      if a != Gains { assert Holds(a, s); }
    }
  }

  function RolledBack(s: State, now: Time): State
    requires s.r.previous.Some?
  {
    var s' := Retired(s, s.r.route.trial, now);
    var back := s.r.previous.value;
    s'.(r := s'.r.(route := back.(resumed := Some(now)), previous := None),
        cooldown := now + s.own.c.cooldown, pending := map[], h := s'.h.(trips := s'.h.trips.(now := s'.h.trips.before)))
  }

  lemma RollBackKeeps(s: State, now: Time)
    requires Fit(s) && Now(s.h, now) && s.r.previous.Some?
    ensures Fit(RolledBack(s, now))
  {
    var s1 := Retired(s, s.r.route.trial, now);
    assert s.r.route.trial == NO_TOKEN || s.own.leader || s.r.route.trial in s.h.ledger.told by { assert Holds(Tokens, s); }
    assert s.r.replacement.None? && s.r.rekey.None? && s.r.previous.value.phase == Active by { assert Holds(Protocol, s); }
    RetireKeeps(s, s.r.route.trial, now);
    assert s1.r == s.r && s1.h.trips == s.h.trips && s1.h.past == s.h.past;
    BackGains(s1, RolledBack(s, now));
    forall a ensures Holds(a, RolledBack(s, now)) {
      if a != Gains { assert Holds(a, s1); }
    }
  }

  lemma BackGains(s: State, s': State)
    requires Fit(s) && s'.own == s.own && s'.h.past == s.h.past && s'.h.trips == s.h.trips.(now := s.h.trips.before)
    requires s.r.previous.Some? && s.r.previous.value.phase == Active && s.r.replacement.None? && s'.r.previous.None? && s'.r.replacement.None?
    requires s'.r.route.trial == s.r.previous.value.trial && s'.r.route.phase == Active
    ensures Holds(Gains, s')
  {
    assert Holds(Gains, s);
    GainsStay(s.h.past.improved, s.own.c, s.h.trips, s'.h.trips);
  }

  /* ----- keys ----- */

  /** While nothing is selected the key may change. */
  function Keyed(s: State, key: Key): State {
    s.(r := s.r.(psk := key))
  }

  lemma KeyKeeps(s: State, key: Key)
    requires Fit(s) && s.r.route.phase == Idle
    ensures Fit(Keyed(s, key))
  {
    assert Holds(Protocol, s);
    forall a ensures Holds(a, Keyed(s, key)) { assert Holds(a, s); }
  }

  function NewTransition(leader: bool, key: Key, token: Token, now: Time): Transition {
    Transition(key, if leader then Offering else Waiting, token, now, 0, 0, 0, false, None)
  }

  function Rekeying(s: State, x: Option<Transition>): State {
    s.(r := s.r.(rekey := x))
  }

  /** A transition that has not changed a key and heard of no observation. */
  lemma StartRekeyKeeps(s: State, x: Transition)
    requires Fit(s) && s.r.route.phase == Active && s.r.replacement.None? && x.stage != Observing && x.remoteObserved.None?
    ensures Fit(Rekeying(s, Some(x)))
  {
    assert Holds(Protocol, s);
    forall a ensures Holds(a, Rekeying(s, Some(x))) { assert Holds(a, s); }
  }

  function NotedRekey(x: Transition, op: Op, now: Time): Transition {
    match op
    case RekeyCommit => x.(remoteApplied := true)
    case RekeyApplied => x.(remoteApplied := true)
    case RekeyObserved => x.(remoteApplied := true, remoteObserved := Some(now))
    case RekeyFinished => x.(remoteApplied := true, remoteObserved := Some(now))
    case _ => x
  }

  lemma NoteRekeyKeeps(s: State, m: Message, now: Time)
    requires Fit(s) && s.r.rekey.Some? && s.r.rekey.value.stage == Observing && s.h.event.message == Some(m)
    requires m.token == s.r.rekey.value.token && m.key == s.r.rekey.value.key
    ensures Fit(Rekeying(s, Some(NotedRekey(s.r.rekey.value, m.op, now))))
  {
    assert Holds(Protocol, s);
    forall a ensures Holds(a, Rekeying(s, Some(NotedRekey(s.r.rekey.value, m.op, now)))) { assert Holds(a, s); }
  }

  function Rekeyed(s: State, appliedAt: Time, handshake: Time): State
    requires s.r.rekey.Some?
  {
    var x, past := s.r.rekey.value, s.h.past;
    s.(r := s.r.(psk := x.key, rekey := Some(x.(stage := Observing, appliedAt := appliedAt, handshake := handshake))),
       h := s.h.(past := past.(rekeyed := past.rekeyed + {Install(x.token, x.key)})))
  }

  lemma RekeyKeeps(s: State, m: Message, appliedAt: Time, handshake: Time)
    requires Fit(s) && s.r.rekey.Some? && s.h.event.message == Some(m)
    requires m == Message(if s.own.leader then RekeyReady else RekeyCommit, s.r.rekey.value.token, s.r.rekey.value.key, m.rekey)
    ensures Fit(Rekeyed(s, appliedAt, handshake))
  {
    assert Holds(Protocol, s);
    forall a ensures Holds(a, Rekeyed(s, appliedAt, handshake)) {
      assert Holds(a, s);
      if a == Words { RekeyingIsHonest(s.own.leader, s.h.past, Install(s.r.rekey.value.token, s.r.rekey.value.key)); }
    }
  }

  function Finished(s: State, now: Time): State
    requires s.r.rekey.Some?
  {
    var x, past := s.r.rekey.value, s.h.past;
    s.(r := s.r.(rekey := None, completed := Some(x.(finishedAt := now)), route := s.r.route.(remoteAt := now)),
       cooldown := if now + OBSERVATION > s.cooldown then now + OBSERVATION else s.cooldown,
       h := s.h.(past := past.(finished := past.finished + {Install(x.token, x.key)})))
  }

  lemma FinishKeeps(s: State, now: Time)
    requires Fit(s) && s.r.rekey.Some? && s.r.rekey.value.stage == Observing && s.r.rekey.value.remoteObserved.Some?
    ensures Fit(Finished(s, now))
  {
    assert Holds(Protocol, s);
    forall a ensures Holds(a, Finished(s, now)) {
      assert Holds(a, s);
      if a == Words { FinishingIsHonest(s.own.leader, s.h.past, Install(s.r.rekey.value.token, s.r.rekey.value.key)); }
    }
  }

  /* ----- routes ----- */

  function Chosen(r: Route, path: Path, phase: Phase, token: Token, baseline: Time, now: Time): Route {
    r.(selected := Some(path), phase := phase, trial := token, since := now, baseline := baseline,
       localGood := false, remoteGood := false, committed := false)
  }

  /** Nothing is under way, and the path is not the one in use. */
  predicate Free(r: Routes, path: Path) {
    && r.rekey.None? && r.replacement.None?
    && (r.route.phase == Idle || (r.route.phase == Active && r.route.selected != Some(path)))
  }

  /** When a follower considers a proposal at all. */
  predicate Opens(s: State, m: Message, path: Path, now: Time) {
    m.op == Prepare && Free(s.r, path) && s.cooldown <= now && !s.own.leader
  }

  /** What the round trips on a path are compared with: the tunnel's, or those on the
      path in use. */
  function Rival(paths: map<Path, Lan>, r: Route, now: Time, c: Config): Option<Time>
    requires c.Legal()
  {
    if r.phase != Active then Median(r.tunnel, now, c)
    else if r.selected.Some? then LanMedian(paths, r.selected.value, now, c)
    else None
  }

  /** A path worth a trial: installable, fresh, and better than what is in use. */
  predicate Qualifies(paths: map<Path, Lan>, r: Route, path: Path, now: Time, c: Config)
    requires c.Legal()
  {
    && path in paths && !paths[path].scoped && FreshAt(paths, path, now, c.failure)
    && Median(r.tunnel, now, c).Some? && LanMedian(paths, path, now, c).Some? && Rival(paths, r, now, c).Some?
    && Improves(LanMedian(paths, path, now, c).value, Rival(paths, r, now, c).value, c)
  }

  /** A path that qualifies has four fifths of its probes answered and beats, by the policy's
      margins, the path in use when a route is active, and the tunnel otherwise. */
  lemma QualifiesBeats(paths: map<Path, Lan>, r: Route, path: Path, now: Time, c: Config) returns (own: Time, rival: Time)
    requires c.Legal() && Qualifies(paths, r, path, now, c)
    ensures path in paths && !paths[path].scoped && paths[path].lastPong.Some? && now - paths[path].lastPong.value < c.failure
    ensures Middle(paths[path].stats.samples, now, c.window, own) && Improves(own, rival, c)
    ensures 10 * |Young(paths[path].stats.samples, now, c.window)| >= 8 * (c.window / c.probe)
    ensures if r.phase == Active
            then r.selected.Some? && r.selected.value in paths && Middle(paths[r.selected.value].stats.samples, now, c.window, rival)
            else Middle(r.tunnel.samples, now, c.window, rival)
  {
    MedianIsMiddle(paths[path].stats, now, c);
    MedianIsMiddle(r.tunnel, now, c);
    own, rival := LanMedian(paths, path, now, c).value, Rival(paths, r, now, c).value;
    if r.phase == Active { MedianIsMiddle(paths[r.selected.value].stats, now, c); }
  }

  /** The proposal being handled passes the retired-token test. */
  function Admitted(s: State, now: Time): State {
    s.(h := s.h.(event := s.h.event.(admitted := Some(now))))
  }

  lemma AdmitKeeps(s: State, m: Message, now: Time)
    requires Fit(s) && Now(s.h, now) && s.h.event.latest == now && s.h.event.message == Some(m) && m.op == Prepare
    requires s.h.event.before == s.h.ledger.gone && s.k.until <= now && (m.token in s.k.retired ==> s.k.retired[m.token] <= now)
    ensures Fit(Admitted(s, now))
  {
    forall a ensures Holds(a, Admitted(s, now)) { assert Holds(a, s); }
  }

  function OpenedRoutes(r: Routes, m: Message, path: Path, baseline: Time, now: Time): Routes {
    if r.route.phase == Active then r.(replacement := Some(Proposal(path, Prepared, m.token, now, baseline, m.rekey)))
    else r.(route := Chosen(r.route, path, Prepared, m.token, baseline, now).(remoteRekey := m.rekey))
  }

  function Opened(s: State, m: Message, path: Path, baseline: Time, now: Time): State {
    var h := s.h;
    s.(r := OpenedRoutes(s.r, m, path, baseline, now),
       h := h.(trips := h.trips.(bases := h.trips.bases[m.token := Snapshot(s, now)]),
               past := h.past.(prepared := h.past.prepared + {m.token}),
               ledger := h.ledger.(used := h.ledger.used + {m.token}),
               event := h.event.(opening := Some(m.token))))
  }

  lemma OpenKeeps(s: State, m: Message, path: Path, baseline: Time, now: Time)
    requires Fit(s) && !s.own.leader && Free(s.r, path)
    requires s.h.event.message == Some(m) && m.op == Prepare && s.h.event.admitted.Some?
    requires s.own.c.Legal() && Median(s.r.route.tunnel, now, s.own.c) == Some(baseline)
    ensures Fit(Opened(s, m, path, baseline, now))
  {
    var s' := Opened(s, m, path, baseline, now);
    assert Holds(Words, s') by {
      assert Holds(Words, s);
      PreparingIsHonest(s.own.leader, s.h.past, m.token);
    }
    OthersHold(s, s');
    SameMeasures(s, s');
    BaseGains(s, s', m.token, baseline, now);
    OpenProtocol(s, m, path, baseline, now);
    OpenTokens(s, m, path, baseline, now);
    SameVotes(s, s');
    AllHold(s');
  }

  lemma OpenProtocol(s: State, m: Message, path: Path, baseline: Time, now: Time)
    requires Fit(s) && !s.own.leader && Free(s.r, path) && s.h.event.message == Some(m)
    ensures Holds(Protocol, Opened(s, m, path, baseline, now))
    ensures m.token != NO_TOKEN && (s.r.route.phase == Idle ==> s.r.previous.None? && s.r.route.trial == NO_TOKEN)
  {
    assert Holds(Protocol, s);
  }

  lemma OpenTokens(s: State, m: Message, path: Path, baseline: Time, now: Time)
    requires Fit(s) && !s.own.leader && Free(s.r, path)
    requires s.h.event.message == Some(m) && m.op == Prepare && s.h.event.admitted.Some?
    ensures Holds(Tokens, Opened(s, m, path, baseline, now))
  {
    OpenProtocol(s, m, path, baseline, now);
    assert Holds(Tokens, s);
    OpenDated(s.own, s.r, s.k, s.h.ledger, s.h.event, s.h.boot, m, path, baseline, now);
  }

  lemma OpenDated(own: Settings, r: Routes, k: Cache, l: Ledger, e: Event, boot: Time, m: Message, path: Path, baseline: Time, now: Time)
    requires Dated(own, r, k, l, e, boot) && !own.leader && Free(r, path) && m.token != NO_TOKEN
    requires e.message == Some(m) && m.op == Prepare && e.admitted.Some?
    requires r.route.phase == Idle ==> r.previous.None? && r.route.trial == NO_TOKEN
    ensures Dated(own, OpenedRoutes(r, m, path, baseline, now), k, l.(used := l.used + {m.token}), e.(opening := Some(m.token)), boot)
  {
  }

  /** A token gets its baseline. */
  lemma BaseGains(s: State, s': State, token: Token, baseline: Time, now: Time)
    requires Fit(s) && s.own.c.Legal() && Median(s.r.route.tunnel, now, s.own.c) == Some(baseline)
    requires s'.own == s.own && s'.h.past.improved == s.h.past.improved && s'.h.trips == s.h.trips.(bases := s.h.trips.bases[token := Snapshot(s, now)])
    requires s.r.replacement.None? && (s.r.route.phase == Idle || s.r.route.phase == Active)
    requires if s.r.route.phase == Active then
               s'.r == s.r.(replacement := s'.r.replacement) && s'.r.replacement.Some? && s'.r.replacement.value.token == token && s'.r.replacement.value.baseline == baseline
             else
               s'.r == s.r.(route := s'.r.route) && s'.r.route.trial == token && s'.r.route.baseline == baseline && !s'.r.route.Installed()
    ensures Holds(Gains, s')
  {
    assert Holds(Gains, s);
    SnapshotReads(s, now, baseline);
    GainsStay(s.h.past.improved, s.own.c, s.h.trips, s'.h.trips);
  }

  function ProposedRoutes(r: Routes, path: Path, token: Token, baseline: Time, now: Time): Routes {
    if r.route.phase == Active then r.(replacement := Some(Proposal(path, Preparing, token, now, baseline, false)))
    else r.(route := Chosen(r.route, path, Preparing, token, baseline, now))
  }

  function Proposed(s: State, path: Path, token: Token, baseline: Time, now: Time): State {
    var l := s.h.ledger;
    s.(r := ProposedRoutes(s.r, path, token, baseline, now),
       h := s.h.(trips := s.h.trips.(bases := s.h.trips.bases[token := Snapshot(s, now)]),
                 ledger := l.(used := l.used + {token}, proposed := l.proposed[token := now])))
  }

  lemma ProposeKeeps(s: State, path: Path, token: Token, baseline: Time, now: Time)
    requires Fit(s) && s.own.leader && Free(s.r, path) && Now(s.h, now) && token != NO_TOKEN && token !in s.h.ledger.proposed
    requires s.own.c.Legal() && Median(s.r.route.tunnel, now, s.own.c) == Some(baseline)
    ensures Fit(Proposed(s, path, token, baseline, now))
  {
    var s' := Proposed(s, path, token, baseline, now);
    BaseGains(s, s', token, baseline, now);
    OthersHold(s, s');
    SameMeasures(s, s');
    ProposeProtocol(s, path, token, baseline, now);
    ProposeTokens(s, path, token, baseline, now);
    SameVotes(s, s');
    AllHold(s');
  }

  lemma ProposeProtocol(s: State, path: Path, token: Token, baseline: Time, now: Time)
    requires Fit(s) && s.own.leader && Free(s.r, path) && token != NO_TOKEN
    ensures Holds(Protocol, Proposed(s, path, token, baseline, now))
    ensures s.r.route.phase == Idle ==> s.r.previous.None? && s.r.route.trial == NO_TOKEN
  {
    assert Holds(Protocol, s);
  }

  lemma ProposeTokens(s: State, path: Path, token: Token, baseline: Time, now: Time)
    requires Fit(s) && s.own.leader && Free(s.r, path) && Now(s.h, now) && token != NO_TOKEN && token !in s.h.ledger.proposed
    ensures Holds(Tokens, Proposed(s, path, token, baseline, now))
  {
    ProposeProtocol(s, path, token, baseline, now);
    assert Holds(Tokens, s);
    ProposeDated(s.own, s.r, s.k, s.h.ledger, s.h.event, s.h.boot, path, token, baseline, now);
  }

  lemma ProposeDated(own: Settings, r: Routes, k: Cache, l: Ledger, e: Event, boot: Time, path: Path, token: Token, baseline: Time, now: Time)
    requires Dated(own, r, k, l, e, boot) && own.leader && Free(r, path) && e.clock <= now <= e.latest && token != NO_TOKEN && token !in l.proposed
    requires r.route.phase == Idle ==> r.previous.None? && r.route.trial == NO_TOKEN
    ensures Dated(own, ProposedRoutes(r, path, token, baseline, now), k, l.(used := l.used + {token}, proposed := l.proposed[token := now]), e, boot)
  {
  }

  /** The peer's rekey support is noted. */
  function Supporting(s: State, rekey: bool): State {
    s.(r := if s.r.replacement.Some? then s.r.(replacement := Some(s.r.replacement.value.(remoteRekey := rekey)))
            else s.r.(route := s.r.route.(remoteRekey := rekey)))
  }

  lemma SupportKeeps(s: State, rekey: bool)
    requires Fit(s)
    ensures Fit(Supporting(s, rekey))
  {
    var s' := Supporting(s, rekey);
    OthersHold(s, s');
    SameMeasures(s, s');
    SupportProtocol(s, rekey);
    SupportTokens(s, rekey);
    SameVotes(s, s');
    AllHold(s');
  }

  lemma SupportProtocol(s: State, rekey: bool)
    requires Fit(s)
    ensures Holds(Protocol, Supporting(s, rekey)) && Holds(Gains, Supporting(s, rekey))
  {
    assert Holds(Protocol, s) && Holds(Gains, s);
  }

  lemma SupportTokens(s: State, rekey: bool)
    requires Fit(s)
    ensures Holds(Tokens, Supporting(s, rekey))
  {
    assert Holds(Tokens, s);
  }

  function TrialRoute(r: Route, replacement: Option<Proposal>, now: Time): Route {
    var r := if replacement.None? then r else
      var x := replacement.value;
      r.(selected := Some(x.path), trial := x.token, baseline := x.baseline, remoteRekey := x.remoteRekey,
         localGood := false, remoteGood := false, committed := false);
    r.(phase := Trial, since := now, resumed := None, tunnel := Measurements(Some(now), []), lastTunnel := None)
  }

  function Begun(s: State, now: Time): State {
    var r := TrialRoute(s.r.route, s.r.replacement, now);
    var past, t := s.h.past, s.h.trips;
    s.(r := s.r.(route := r, previous := if s.r.replacement.Some? then Some(s.r.route) else s.r.previous,
                 replacement := None),
       pending := map[],
       h := s.h.(past := past.(installed := past.installed + {Install(r.trial, s.r.psk)}),
                 trips := NewEra(t.(before := t.now, tokens := t.tokens[t.next := r.trial]))))
  }

  lemma BeginKeeps(s: State, m: Message, now: Time)
    requires Fit(s) && s.h.event.message == Some(m) && m.op == (if s.own.leader then Ready else Commit) && m.key == s.r.psk
    requires if s.r.replacement.Some? then m.token == s.r.replacement.value.token
             else (s.r.route.phase == Preparing || s.r.route.phase == Prepared) && m.token == s.r.route.trial
    ensures Fit(Begun(s, now))
  {
    var s' := Begun(s, now);
    BeginGains(s, now);
    BeginProtocol(s, m, now);
    BeginTokens(s, now);
    BeginMeasures(s, now);
    BeginVotes(s, now);
    AllHold(s');
  }

  lemma BeginProtocol(s: State, m: Message, now: Time)
    requires Fit(s) && s.h.event.message == Some(m) && m.op == (if s.own.leader then Ready else Commit) && m.key == s.r.psk
    requires if s.r.replacement.Some? then m.token == s.r.replacement.value.token
             else (s.r.route.phase == Preparing || s.r.route.phase == Prepared) && m.token == s.r.route.trial
    ensures Holds(Protocol, Begun(s, now)) && Holds(Words, Begun(s, now))
  {
    assert Holds(Protocol, s) && Holds(Words, s);
    var s' := Begun(s, now);
    if s.r.replacement.Some? { TriedStays(s.h.past, s'.h.past, s.r.route.trial); }
    assert Install(m.token, s.r.psk) in s'.h.past.installed;
    InstallingIsHonest(s.own.leader, s.h.past, Install(m.token, s.r.psk));
  }

  lemma BeginTokens(s: State, now: Time)
    requires Fit(s) && (s.r.replacement.None? ==> s.r.route.phase == Preparing || s.r.route.phase == Prepared)
    ensures Holds(Tokens, Begun(s, now))
  {
    assert (s.r.replacement.Some? ==> s.r.previous.None?) && s.r.route.trial != NO_TOKEN by { assert Holds(Protocol, s); }
    assert Holds(Tokens, s);
  }

  lemma BeginVotes(s: State, now: Time)
    requires Fit(s) && (s.r.replacement.None? ==> s.r.route.phase == Preparing || s.r.route.phase == Prepared)
    ensures Holds(Votes, Begun(s, now))
  {
    assert s.r.replacement.None? ==> !s.r.route.remoteGood by { assert Holds(Protocol, s); }
    SameVotes(s, Begun(s, now));
  }

  lemma BeginMeasures(s: State, now: Time)
    requires Fit(s) && (s.r.replacement.None? ==> s.r.route.phase == Preparing || s.r.route.phase == Prepared)
    ensures Holds(Measures, Begun(s, now)) && Holds(Replies, Begun(s, now))
  {
    assert s.r.previous.None? by { assert Holds(Protocol, s); }
    assert Holds(Measures, s) && Holds(Replies, s);
  }

  lemma BeginGains(s: State, now: Time)
    requires Fit(s) && (s.r.replacement.None? ==> s.r.route.phase == Preparing || s.r.route.phase == Prepared)
    ensures Holds(Gains, Begun(s, now))
  {
    var s' := Begun(s, now);
    assert Holds(Gains, s) && Holds(Protocol, s) && Holds(Measures, s);
    GainsStay(s.h.past.improved, s.own.c, s.h.trips, s'.h.trips);
    BaseStays(s.own.c, s.h.trips, s'.h.trips, s'.r.route.trial, s'.r.route.baseline);
  }

  /** What a message changes in a route: a commit or its confirmation commits, keep
      and hold say how the trial goes on the other side. */
  function Noted(r: Route, op: Op, now: Time): Route {
    var kept := op == Keep && r.Installed();
    r.(committed := r.committed || op == Commit || op == Committed,
       remoteGood := kept || (r.remoteGood && op != Hold),
       remoteAt := if kept then now else r.remoteAt)
  }

  /** The log after a message about a route. */
  function Tally(log: seq<Entry>, m: Message, path: Path, now: Time): seq<Entry> {
    if m.op == Keep || m.op == Hold then log + [Vote(m.token, path, m.op == Keep, now)] else log
  }

  /** A message about something else than the current route. */
  function Tallied(s: State, m: Message, path: Path, now: Time): State {
    s.(h := s.h.(log := Tally(s.h.log, m, path, now)))
  }

  lemma TallyKeeps(s: State, m: Message, path: Path, now: Time)
    requires Fit(s) && (s.r.route.selected != Some(path) || s.r.route.trial != m.token)
    ensures Fit(Tallied(s, m, path, now))
  {
    var s' := Tallied(s, m, path, now);
    forall a ensures Holds(a, s') {
      assert Holds(a, s);
      if a == Votes { TallyVotes(s, m, path, now); }
    }
  }

  lemma TallyVotes(s: State, m: Message, path: Path, now: Time)
    requires Holds(Votes, s) && (s.r.route.selected != Some(path) || s.r.route.trial != m.token)
    ensures Holds(Votes, Tallied(s, m, path, now))
  {
    if m.op == Keep || m.op == Hold {
      var x, r := Vote(m.token, path, m.op == Keep, now), s.r.route;
      LogGrows(s.h.past.activated, s.h.log, s.own.c.failure, x);
      if r.selected.Some? { LastVoteExtends(s.h.log, x, r.trial, r.selected.value); }
    }
  }

  function Noting(s: State, m: Message, path: Path, now: Time): State {
    Tallied(s, m, path, now).(r := s.r.(route := Noted(s.r.route, m.op, now)))
  }

  lemma NoteKeeps(s: State, m: Message, path: Path, now: Time)
    requires Fit(s) && s.h.event.message == Some(m) && m.token == s.r.route.trial && s.r.route.selected == Some(path)
    ensures Fit(Noting(s, m, path, now))
  {
    var s' := Noting(s, m, path, now);
    forall a ensures Holds(a, s') {
      assert Holds(a, s);
      if a == Votes { NoteVotes(s, m, path, now); }
    }
  }

  lemma NoteVotes(s: State, m: Message, path: Path, now: Time)
    requires Holds(Votes, s) && m.token == s.r.route.trial && s.r.route.selected == Some(path)
    ensures Holds(Votes, Noting(s, m, path, now))
  {
    if m.op == Keep || m.op == Hold {
      var x := Vote(m.token, path, m.op == Keep, now);
      LogGrows(s.h.past.activated, s.h.log, s.own.c.failure, x);
      LastVoteExtends(s.h.log, x, m.token, path);
    }
  }

  function NotingPrevious(s: State, m: Message, now: Time): State
    requires s.r.previous.Some?
  {
    s.(r := s.r.(previous := Some(Noted(s.r.previous.value, m.op, now))))
  }

  lemma NotePreviousKeeps(s: State, m: Message, now: Time)
    requires Fit(s) && s.h.event.message == Some(m) && s.r.previous.Some? && m.token == s.r.previous.value.trial
    ensures Fit(NotingPrevious(s, m, now))
  {
    forall a ensures Holds(a, NotingPrevious(s, m, now)) { assert Holds(a, s); }
  }

  /* ----- trials ----- */

  /** The gain that a good grade stands for. */
  function GainNow(s: State, rtt: Time, now: Time): Gain
    requires s.r.route.trial in s.h.trips.bases
  {
    Gain(s.h.trips.bases[s.r.route.trial], s.r.route.baseline, Snapshot(s, now), rtt)
  }

  function Graded(s: State, rtt: Option<Time>, now: Time): State
    requires s.r.route.trial in s.h.trips.bases
  {
    var r, past := s.r.route, s.h.past;
    if rtt.None? then s.(r := s.r.(route := r.(localGood := false)))
    else s.(r := s.r.(route := r.(localGood := true)),
            h := s.h.(past := past.(improved := past.improved[r.trial := GainNow(s, rtt.value, now)])))
  }

  /** A good grade is a measured one. */
  lemma GradeKeeps(s: State, rtt: Option<Time>, now: Time)
    requires Fit(s) && s.r.route.phase == Trial && s.own.c.Legal()
    requires rtt.Some? ==> Median(s.r.route.tunnel, now, s.own.c) == rtt && Improves(rtt.value, s.r.route.baseline, s.own.c)
    ensures s.r.route.trial in s.h.trips.bases && Fit(Graded(s, rtt, now))
  {
    assert Holds(Gains, s);
    var s' := Graded(s, rtt, now);
    GradeGains(s, rtt, now);
    forall a ensures Holds(a, s') {
      if a != Gains { assert Holds(a, s); }
      if a == Words && rtt.Some? { ImprovingIsHonest(s.own.leader, s.h.past, s.r.route.trial, GainNow(s, rtt.value, now)); }
    }
  }

  lemma GradeGains(s: State, rtt: Option<Time>, now: Time)
    requires Fit(s) && s.r.route.phase == Trial && s.own.c.Legal() && s.r.route.trial in s.h.trips.bases
    requires rtt.Some? ==> Median(s.r.route.tunnel, now, s.own.c) == rtt && Improves(rtt.value, s.r.route.baseline, s.own.c)
    ensures Holds(Gains, Graded(s, rtt, now))
  {
    assert Holds(Gains, s);
    if rtt.Some? {
      SnapshotReads(s, now, rtt.value);
      GainAdded(s.h.past.improved, s.own.c, s.h.trips, s.r.route.trial, GainNow(s, rtt.value, now));
    }
  }

  lemma GainAdded(improved: map<Token, Gain>, c: Config, trips: Trips, t: Token, g: Gain)
    requires GainsFit(improved, c, trips) && RealGain(g, t, c, trips)
    ensures GainsFit(improved[t := g], c, trips)
  {
    var more := improved[t := g];
    forall x ensures GainAt(more, c, trips, x) {
      assert GainAt(improved, c, trips, x);
    }
  }

  function Activated(s: State, now: Time): State
    requires s.r.route.selected.Some?
  {
    var past, r := s.h.past, s.r.route;
    s.(r := s.r.(route := r.(phase := Active)), cooldown := now + s.own.c.cooldown,
       h := s.h.(past := past.(activated := past.activated + {r.trial}), log := s.h.log + [Made(r.trial, r.selected.value, now)]))
  }

  lemma ActivateKeeps(s: State, now: Time)
    requires Fit(s) && s.r.route.phase == Trial && s.r.previous.None? && s.r.route.selected.Some?
    requires s.r.route.localGood && s.r.route.remoteGood && s.r.route.committed && now - s.r.route.remoteAt < s.own.c.failure
    ensures Fit(Activated(s, now))
  {
    assert Holds(Protocol, s);
    forall a ensures Holds(a, Activated(s, now)) {
      assert Holds(a, s);
      if a == Words { ActivatingIsHonest(s.own.leader, s.h.past, s.r.route.trial); }
      if a == Votes { ActivateVotes(s, now); }
    }
  }

  lemma ActivateVotes(s: State, now: Time)
    requires Holds(Votes, s) && s.r.route.phase == Trial && s.r.route.selected.Some? && s.r.route.remoteGood && now - s.r.route.remoteAt < s.own.c.failure
    ensures Holds(Votes, Activated(s, now))
  {
    var x := Made(s.r.route.trial, s.r.route.selected.value, now);
    assert (s.h.log + [x])[..|s.h.log|] == s.h.log;
    LogGrows(s.h.past.activated, s.h.log, s.own.c.failure, x);
  }

  /* ----- probes ----- */

  function Pinged(s: State, on: Option<Path>, token: Token, session: nat, now: Time): State {
    var t, w := s.h.trips, s.r.route.tunnel;
    var measure := on.None? || (on.value in s.paths && session == s.paths[on.value].session);
    var s' := s.(pending := s.pending[token := Probe(on, now, session, measure)]);
    if on.Some? then s' else
      s'.(r := s.r.(route := s.r.route.(tunnel := if w.since.None? then w.(since := Some(now)) else w)),
          h := s.h.(trips := t.(pings := t.pings[token := Trip(t.now, session, now)])))
  }

  /** Probes and their replies concern the measurements only. */
  lemma ProbesKeep(s: State, s': State)
    requires Fit(s) && s' == s.(r := s'.r, pending := s'.pending, paths := s'.paths, h := s.h.(trips := s'.h.trips))
    requires s'.r == s.r.(route := s.r.route.(tunnel := s'.r.route.tunnel, lastTunnel := s'.r.route.lastTunnel))
    requires TripsGrow(s.h.trips, s'.h.trips) && s'.h.trips == s.h.trips.(pings := s'.h.trips.pings)
    ensures Holds(Protocol, s') && Holds(Words, s') && Holds(Tokens, s') && Holds(Gains, s')
  {
    assert Holds(Gains, s') by { ProbesKeepGains(s, s'); }
    assert Holds(Protocol, s') by { assert Holds(Protocol, s); }
    assert Holds(Words, s') by { assert Holds(Words, s); }
    assert Holds(Tokens, s') by { assert Holds(Tokens, s); }
  }

  lemma ProbesKeepGains(s: State, s': State)
    requires Fit(s) && s'.own == s.own && s'.h.past == s.h.past
    requires s'.r == s.r.(route := s.r.route.(tunnel := s'.r.route.tunnel, lastTunnel := s'.r.route.lastTunnel))
    requires TripsGrow(s.h.trips, s'.h.trips) && s'.h.trips == s.h.trips.(pings := s'.h.trips.pings)
    ensures Holds(Gains, s')
  {
    assert Holds(Gains, s);
    GainsStay(s.h.past.improved, s.own.c, s.h.trips, s'.h.trips);
    var r, x := s.r.route, s.r.replacement;
    if r.phase != Idle && r.phase != Active { BaseStays(s.own.c, s.h.trips, s'.h.trips, r.trial, r.baseline); }
    if x.Some? { BaseStays(s.own.c, s.h.trips, s'.h.trips, x.value.token, x.value.baseline); }
  }

  lemma PingMeasured(w: Measurements, previous: Option<Route>, pending: map<Token, Probe>, t: Trips, token: Token, q: Probe)
    requires Measured(w, previous, pending, t) && token !in t.pings && token !in pending
    ensures Measured(w, previous, pending[token := q],
                     if q.path.None? then t.(pings := t.pings[token := Trip(t.now, q.session, q.at)]) else t)
  {
    var pings := t.pings[token := Trip(t.now, q.session, q.at)];
    forall i | 0 <= i < |w.samples| ensures w.samples[i].ping != token && Answer(w.samples[i], pings, t.now) {
      assert Answer(w.samples[i], t.pings, t.now);
    }
    if previous.Some? {
      var saved := previous.value.tunnel.samples;
      forall i | 0 <= i < |saved| ensures saved[i].ping != token && Answer(saved[i], pings, t.before) {
        assert Answer(saved[i], t.pings, t.before);
      }
    }
  }

  lemma PingMeasures(s: State, on: Option<Path>, token: Token, session: nat, now: Time)
    requires Fit(s) && token !in s.h.trips.pings && token !in s.pending
    ensures var s' := Pinged(s, on, token, session, now); Holds(Measures, s') && Holds(Replies, s') && TripsGrow(s.h.trips, s'.h.trips)
  {
    assert Holds(Measures, s) && Holds(Replies, s);
    PingMeasured(s.r.route.tunnel, s.r.previous, s.pending, s.h.trips, token, Pinged(s, on, token, session, now).pending[token]);
  }

  lemma PingKeeps(s: State, on: Option<Path>, token: Token, session: nat, now: Time)
    requires Fit(s) && token !in s.h.trips.pings && token !in s.pending
    ensures Fit(Pinged(s, on, token, session, now))
  {
    var s' := Pinged(s, on, token, session, now);
    PingMeasures(s, on, token, session, now);
    ProbesKeep(s, s');
    SameVotes(s, s');
    AllHold(s');
  }

  /** A LAN reply confirms its path and session; it is measured if it came on the
      session confirmed before. */
  function LanReply(paths: map<Path, Lan>, q: Probe, s: Sample, window: Time): map<Path, Lan>
    requires q.path.Some?
  {
    var path := q.path.value;
    if path !in paths then paths else
    var stats := paths[path].stats;
    paths[path := paths[path].(session := s.session, lastPong := Some(s.at), stats := if q.measure then Add(stats, s, window) else stats)]
  }

  /** A path that was not known before. */
  function Found(s: State, path: Path, scoped: bool, now: Time): State {
    s.(paths := s.paths[path := Lan(scoped, 0, None, Measurements(Some(now), []))])
  }

  lemma FindKeeps(s: State, path: Path, scoped: bool, now: Time)
    requires Fit(s) && path !in s.paths
    ensures Fit(Found(s, path, scoped, now))
  {
    forall a ensures Holds(a, Found(s, path, scoped, now)) { assert Holds(a, s); }
  }

  /** A reply is counted. */
  function Ponged(s: State, token: Token, session: nat, now: Time): State
    requires token in s.pending
  {
    var q := s.pending[token];
    var s' := s.(pending := s.pending - {token});
    var sample := Sample(now, now - q.at, token, session);
    if q.path.Some? then s'.(paths := LanReply(s.paths, q, sample, s.own.c.window)) else
      var w := Add(s.r.route.tunnel, sample, s.own.c.window);
      s'.(r := s.r.(route := s.r.route.(tunnel := w, lastTunnel := Some(now))))
  }

  lemma AddAnswers(w: Measurements, t: Trips, pending: map<Token, Probe>, s: Sample, window: Time)
    requires Answers(w.samples, t.pings, t.now, pending) && s.ping in pending && Answer(s, t.pings, t.now)
    ensures Answers(Add(w, s, window).samples, t.pings, t.now, pending - {s.ping})
  {
    RecentIsOld(w.samples, s.at, window);
    var kept := Recent(w.samples, s.at, window);
    forall i | 0 <= i < |kept| ensures kept[i].ping != s.ping && Answer(kept[i], t.pings, t.now) && kept[i].ping !in pending {
      var j :| 0 <= j < |w.samples| && w.samples[j] == kept[i];
    }
  }

  lemma PongMeasured(w: Measurements, previous: Option<Route>, pending: map<Token, Probe>, t: Trips, s: Sample, window: Time)
    requires Measured(w, previous, pending, t) && s.ping in pending
    requires s.session == pending[s.ping].session && s.at - s.rtt == pending[s.ping].at
    ensures Measured(if pending[s.ping].path.None? then Add(w, s, window) else w, previous, pending - {s.ping}, t)
  {
    if pending[s.ping].path.None? { AddAnswers(w, t, pending, s, window); }
  }

  lemma PongMeasures(s: State, token: Token, session: nat, now: Time)
    requires Fit(s) && token in s.pending && s.pending[token].session == session
    ensures Holds(Measures, Ponged(s, token, session, now))
  {
    assert Holds(Measures, s);
    PongMeasured(s.r.route.tunnel, s.r.previous, s.pending, s.h.trips, Sample(now, now - s.pending[token].at, token, session), s.own.c.window);
  }

  lemma PongReplies(s: State, token: Token, session: nat, now: Time)
    requires Fit(s) && token in s.pending && now <= s.h.event.clock
    ensures Holds(Replies, Ponged(s, token, session, now))
  {
    assert Holds(Replies, s);
  }

  lemma PongKeeps(s: State, token: Token, session: nat, now: Time)
    requires Fit(s) && token in s.pending && s.pending[token].session == session && now <= s.h.event.clock
    ensures Fit(Ponged(s, token, session, now))
  {
    var s' := Ponged(s, token, session, now);
    ProbesKeep(s, s');
    PongMeasures(s, token, session, now);
    PongReplies(s, token, session, now);
    SameVotes(s, s');
    AllHold(s');
  }

  function Unanswered(pending: map<Token, Probe>, now: Time, failure: Time): map<Token, Probe> {
    map t | t in pending && now - pending[t].at <= failure :: pending[t]
  }

  lemma PruneKeeps(s: State, now: Time)
    requires Fit(s)
    ensures Fit(s.(pending := Unanswered(s.pending, now, s.own.c.failure)))
  {
    var s' := s.(pending := Unanswered(s.pending, now, s.own.c.failure));
    forall a ensures Holds(a, s') { assert Holds(a, s); }
  }
}
