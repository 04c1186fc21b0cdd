/** What the two daemons of mesh.go and psk.go can conclude from the messages they
    exchange: what one node says is backed by what it did, and what it does is
    backed by what it heard. */
module Story {
  import opened Common
  import opened Measure

  type Token = nat

  const NO_TOKEN: Token := 0

  datatype Op =
    | Prepare | Ready | Commit | Committed | Keep | Hold | Abort
    | RekeyOffer | RekeyReady | RekeyCommit | RekeyApplied | RekeyObserved | RekeyFinished

  /** A control message. Its proof is an ideal keyed hash of operation, token and
      direction, so all a receiver learns from it is the key: zero for none. */
  datatype Message = Message(op: Op, token: Token, key: Key, rekey: bool)

  datatype Fact = Fact(op: Op, token: Token)
  datatype Proof = Proof(op: Op, token: Token, key: Key)
  datatype Install = Install(token: Token, key: Key)

  /** Tunnel statistics as they were read: when, and under which installation. */
  datatype Taken = Taken(tunnel: Measurements, at: Time, era: nat)

  /** A trial measured to be better: the statistics behind its baseline, those of the
      trial, and the median of each. */
  datatype Gain = Gain(before: Taken, baseline: Time, trial: Taken, rtt: Time)

  /** The past of one node, as far as its peer is concerned. */
  datatype Past = Past(
    said: set<Fact>, proved: set<Proof>,      // Sent, and with which key.
    heard: set<Fact>, proven: set<Proof>,     // Received, and with which key.
    prepared: set<Token>,                     // Proposals accepted.
    installed: set<Install>,                  // Routes installed for a trial.
    improved: map<Token, Gain>,               // Trials measured to be better.
    activated: set<Token>,                    // Trials made active.
    rekeyed: set<Install>,                    // Keys installed in place.
    finished: set<Install>)                   // In-place transitions declared complete.

  function NoPast(): Past {
    Past({}, {}, {}, {}, {}, {}, map[], {}, {}, {})
  }

  predicate AboutRekey(op: Op) {
    op.RekeyOffer? || op.RekeyReady? || op.RekeyCommit? || op.RekeyApplied? || op.RekeyObserved? || op.RekeyFinished?
  }

  ghost predicate Tried(installed: set<Install>, t: Token) {
    exists x :: x in installed && x.token == t
  }

  /** What makes a message true. */
  ghost predicate SaidRightly(h: Past, f: Fact) {
    f in h.said ==> match f.op
      case Ready => f.token in h.prepared
      case Committed => Tried(h.installed, f.token)
      case Keep => f.token in h.improved && Tried(h.installed, f.token)
      case _ => true
  }

  ghost predicate ProvedRightly(h: Past, p: Proof) {
    p in h.proved ==> match p.op
      case Ready => p.token in h.prepared
      case Commit => Install(p.token, p.key) in h.installed
      case RekeyApplied => Install(p.token, p.key) in h.rekeyed
      case RekeyObserved => Install(p.token, p.key) in h.rekeyed
      case RekeyFinished => Install(p.token, p.key) in h.rekeyed
      case _ => true
  }

  /** What a node must have heard before it installs a route: the leader that the
      follower is ready, the follower that the leader has committed. */
  ghost predicate InstalledRightly(leader: bool, h: Past, x: Install) {
    x in h.installed ==> Proof(if leader then Ready else Commit, x.token, x.key) in h.proven
  }

  ghost predicate ActivatedRightly(h: Past, t: Token) {
    t in h.activated ==>
      && t in h.improved && Tried(h.installed, t)
      && Fact(Keep, t) in h.heard && (Fact(Commit, t) in h.heard || Fact(Committed, t) in h.heard)
  }

  ghost predicate RekeyedRightly(leader: bool, h: Past, x: Install) {
    && (x in h.rekeyed ==> Proof(if leader then RekeyReady else RekeyCommit, x.token, x.key) in h.proven)
    && (x in h.finished ==>
          x in h.rekeyed && (Proof(RekeyObserved, x.token, x.key) in h.proven || Proof(RekeyFinished, x.token, x.key) in h.proven))
  }

  ghost predicate Honest(leader: bool, h: Past) {
    && (forall f {:trigger SaidRightly(h, f)} :: SaidRightly(h, f))
    && (forall p {:trigger ProvedRightly(h, p)} :: ProvedRightly(h, p))
    && (forall x {:trigger InstalledRightly(leader, h, x)} :: InstalledRightly(leader, h, x))
    && (forall t {:trigger ActivatedRightly(h, t)} :: ActivatedRightly(h, t))
    && (forall x {:trigger RekeyedRightly(leader, h, x)} :: RekeyedRightly(leader, h, x))
  }

  ghost predicate Grows(h: Past, h': Past) {
    && h.said <= h'.said && h.proved <= h'.proved && h.heard <= h'.heard && h.proven <= h'.proven
    && h.prepared <= h'.prepared && h.installed <= h'.installed && h.improved.Keys <= h'.improved.Keys
    && h.activated <= h'.activated && h.rekeyed <= h'.rekeyed && h.finished <= h'.finished
  }

  lemma TriedStays(h: Past, h': Past, t: Token)
    requires Grows(h, h') && Tried(h.installed, t)
    ensures Tried(h'.installed, t)
  {
    var x :| x in h.installed && x.token == t;
    assert x in h'.installed;
  }

  /** New deeds need their own reasons; old ones keep theirs. */
  lemma HonestGrows(leader: bool, h: Past, h': Past)
    requires Honest(leader, h) && Grows(h, h')
    requires forall f :: f in h'.said && f !in h.said ==> SaidRightly(h', f)
    requires forall p :: p in h'.proved && p !in h.proved ==> ProvedRightly(h', p)
    requires forall x :: x in h'.installed && x !in h.installed ==> InstalledRightly(leader, h', x)
    requires forall t :: t in h'.activated && t !in h.activated ==> ActivatedRightly(h', t)
    requires forall x :: (x in h'.rekeyed && x !in h.rekeyed) || (x in h'.finished && x !in h.finished) ==> RekeyedRightly(leader, h', x)
    ensures Honest(leader, h')
  {
    forall f ensures SaidRightly(h', f) {
      assert SaidRightly(h, f);
      if f in h.said && (f.op == Committed || f.op == Keep) { TriedStays(h, h', f.token); }
    }
    forall p ensures ProvedRightly(h', p) { assert ProvedRightly(h, p); }
    forall x ensures InstalledRightly(leader, h', x) { assert InstalledRightly(leader, h, x); }
    forall t ensures ActivatedRightly(h', t) {
      assert ActivatedRightly(h, t);
      if t in h.activated { TriedStays(h, h', t); }
    }
    forall x ensures RekeyedRightly(leader, h', x) { assert RekeyedRightly(leader, h, x); }
  }

  /* ----- the deeds ----- */

  function Says(h: Past, op: Op, t: Token, k: Key): Past {
    h.(said := h.said + {Fact(op, t)}, proved := h.proved + {Proof(op, t, k)})
  }

  function Hears(h: Past, m: Message): Past {
    h.(heard := h.heard + {Fact(m.op, m.token)}, proven := h.proven + {Proof(m.op, m.token, m.key)})
  }

  /** A message may be sent when it is true. */
  ghost predicate MaySay(h: Past, op: Op, t: Token, k: Key) {
    match op
    case Ready => t in h.prepared
    case Commit => Install(t, k) in h.installed
    case Committed => Tried(h.installed, t)
    case Keep => t in h.improved && Tried(h.installed, t)
    case RekeyApplied => Install(t, k) in h.rekeyed
    case RekeyObserved => Install(t, k) in h.rekeyed
    case RekeyFinished => Install(t, k) in h.rekeyed
    case _ => true
  }

  lemma SayingIsHonest(leader: bool, h: Past, op: Op, t: Token, k: Key)
    requires Honest(leader, h) && MaySay(h, op, t, k)
    ensures Honest(leader, Says(h, op, t, k))
  {
    var h' := Says(h, op, t, k);
    if op == Committed || op == Keep { TriedStays(h, h', t); }
    HonestGrows(leader, h, h');
  }

  lemma HearingIsHonest(leader: bool, h: Past, m: Message)
    requires Honest(leader, h)
    ensures Honest(leader, Hears(h, m))
  {
    HonestGrows(leader, h, Hears(h, m));
  }

  lemma PreparingIsHonest(leader: bool, h: Past, t: Token)
    requires Honest(leader, h)
    ensures Honest(leader, h.(prepared := h.prepared + {t}))
  {
    HonestGrows(leader, h, h.(prepared := h.prepared + {t}));
  }

  lemma InstallingIsHonest(leader: bool, h: Past, x: Install)
    requires Honest(leader, h) && Proof(if leader then Ready else Commit, x.token, x.key) in h.proven
    ensures Honest(leader, h.(installed := h.installed + {x})) && Tried(h.installed + {x}, x.token)
  {
    assert x in h.installed + {x};
    HonestGrows(leader, h, h.(installed := h.installed + {x}));
  }

  lemma ImprovingIsHonest(leader: bool, h: Past, t: Token, g: Gain)
    requires Honest(leader, h)
    ensures Honest(leader, h.(improved := h.improved[t := g]))
  {
    HonestGrows(leader, h, h.(improved := h.improved[t := g]));
  }

  lemma ActivatingIsHonest(leader: bool, h: Past, t: Token)
    requires Honest(leader, h) && t in h.improved && Tried(h.installed, t)
    requires Fact(Keep, t) in h.heard && (Fact(Commit, t) in h.heard || Fact(Committed, t) in h.heard)
    ensures Honest(leader, h.(activated := h.activated + {t}))
  {
    HonestGrows(leader, h, h.(activated := h.activated + {t}));
  }

  lemma RekeyingIsHonest(leader: bool, h: Past, x: Install)
    requires Honest(leader, h) && Proof(if leader then RekeyReady else RekeyCommit, x.token, x.key) in h.proven
    ensures Honest(leader, h.(rekeyed := h.rekeyed + {x}))
  {
    var h' := h.(rekeyed := h.rekeyed + {x});
    assert RekeyedRightly(leader, h, x);
    HonestGrows(leader, h, h');
  }

  lemma FinishingIsHonest(leader: bool, h: Past, x: Install)
    requires Honest(leader, h) && x in h.rekeyed
    requires Proof(RekeyObserved, x.token, x.key) in h.proven || Proof(RekeyFinished, x.token, x.key) in h.proven
    ensures Honest(leader, h.(finished := h.finished + {x}))
  {
    var h' := h.(finished := h.finished + {x});
    assert RekeyedRightly(leader, h, x);
    HonestGrows(leader, h, h');
  }

  /* ----- two nodes ----- */

  /** Messages are authenticated: what one node heard, the other said. */
  ghost predicate HearsOnly(a: Past, b: Past) {
    a.heard <= b.said && a.proven <= b.proved
  }

  /** Leader `a` and follower `b`, whatever was lost, repeated, delayed or reordered. */
  lemma TrialAgreement(a: Past, b: Past, t: Token, k: Key)
    requires Honest(true, a) && Honest(false, b) && HearsOnly(a, b) && HearsOnly(b, a)
    ensures Install(t, k) in b.installed ==> Install(t, k) in a.installed
    ensures Install(t, k) in a.installed ==> t in b.prepared && Proof(Ready, t, k) in b.proved
    ensures t in a.activated || t in b.activated ==> Tried(a.installed, t) && Tried(b.installed, t) && t in a.improved && t in b.improved
  {
    assert InstalledRightly(false, b, Install(t, k)) && InstalledRightly(true, a, Install(t, k));
    assert ProvedRightly(a, Proof(Commit, t, k));
    assert ActivatedRightly(a, t) && ActivatedRightly(b, t);
    assert SaidRightly(a, Fact(Keep, t)) && SaidRightly(b, Fact(Keep, t)) && ProvedRightly(b, Proof(Ready, t, k));
  }

  /** No key is installed in place unless the peer proved to hold it for the same
      token; a transition is complete only if both installed the key. */
  lemma RekeyAgreement(leader: bool, a: Past, b: Past, t: Token, k: Key)
    requires Honest(leader, a) && Honest(!leader, b) && HearsOnly(a, b) && HearsOnly(b, a)
    ensures Install(t, k) in a.rekeyed ==> Proof(if leader then RekeyReady else RekeyCommit, t, k) in b.proved
    ensures Install(t, k) in a.finished ==> Install(t, k) in a.rekeyed && Install(t, k) in b.rekeyed
  {
    assert RekeyedRightly(leader, a, Install(t, k));
    assert ProvedRightly(b, Proof(RekeyObserved, t, k)) && ProvedRightly(b, Proof(RekeyFinished, t, k));
  }
}
