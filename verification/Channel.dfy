/** Two nodes running secure.go over a network that loses, repeats, reorders,
    delays and injects packets. */
module Channel {
  import opened Common
  import opened Sessions
  import opened Lives

  /** A node's table and history; when its sessions were created, the serials of those
      its process started, and whether a live session was ever replaced by another;
      when the process started, how many handshakes had been started and answered before, and
      for all data ever accepted, when the accepting process had started; and every
      body that was given to be sealed, or handed out, with its keys and counter. */
  datatype Node = Node(
    t: Table, peers: set<Key>, ids: nat -> Id, h: History, clock: Time, delivered: seq<Packet>,
    born: map<Id, Time>, started: seq<nat>, overwritten: bool, boot: Time, base: nat, answered: nat, boots: map<Packet, Time>,
    seals: seq<Line>, receipts: seq<Receipt>)

  /** A body under its keys and counter. */
  datatype Line = Line(keys: Keys, counter: nat, body: Body)

  datatype Receipt = Receipt(from: Key, line: Line)

  datatype Move =
    | StartMove(peer: Key)
    | SealMove(id: Id, body: Body)
    | ReceiveMove(p: Packet, genuine: bool, admitted: bool)
    | PruneMove(kept: map<Id, Session>)
    | RestartMove(ids: nat -> Id)

  ghost predicate Overwrites(t: Table, t': Table, now: Time) {
    exists id :: id in t.sessions && Live(t.sessions[id], now) && id in t'.sessions && t'.sessions[id].nonce != t.sessions[id].nonce
  }

  /** One operation of one node, on record. */
  ghost function Moved(n: Node, move: Move, now: Time): Node {
    var n' := Stepped(n, move, now);
    n'.(born := Births(n.t, n'.t, n.born, now), overwritten := n.overwritten || Overwrites(n.t, n'.t, now),
        started := if move.StartMove? && StartStep(n.t, n.peers, n.ids(n.t.serial + 1), move.peer, now).1.Some?
                   then n.started + [n.t.serial + 1] else if move.RestartMove? then [] else n.started,
        seals := Sealings(n, move, now), receipts := Receipts(n, move, now))
  }

  /** What was given to be sealed and came back as a packet. */
  ghost function Sealings(n: Node, move: Move, now: Time): seq<Line> {
    if !move.SealMove? then n.seals else
    var r := SealStep(n.t, move.id, move.body, now).1;
    if r.Some? && r.value.Data? then n.seals + [Line(r.value.keys, r.value.counter, move.body)] else n.seals
  }

  /** What was handed out, and for which packet. */
  ghost function Receipts(n: Node, move: Move, now: Time): seq<Receipt> {
    if !move.ReceiveMove? || !move.p.Data? then n.receipts else
    var e := ReceiveStep(n.t, n.peers, move.p, move.genuine, move.admitted, now).1;
    if e.Delivered? then n.receipts + [Receipt(move.p.from, Line(move.p.keys, move.p.counter, e.body))] else n.receipts
  }

  /** One operation of one node. */
  ghost function Stepped(n: Node, move: Move, now: Time): Node {
    match move
    case StartMove(peer) =>
      var (t, r) := StartStep(n.t, n.peers, n.ids(n.t.serial + 1), peer, now);
      n.(t := t, h := RecordSent(n.h, r, now), clock := now)
    case SealMove(id, body) =>
      var (t, r) := SealStep(n.t, id, body, now);
      n.(t := t, h := RecordSent(n.h, r, now), clock := now)
    case ReceiveMove(p, genuine, admitted) =>
      var (t, e) := ReceiveStep(n.t, n.peers, p, genuine, admitted, now);
      n.(t := t, h := RecordReceived(Expired(n.t, now), n.h, p, e, now), clock := now,
         delivered := if e.Delivered? then n.delivered + [p] else n.delivered,
         boots := if e.Delivered? then n.boots[p := n.boot] else n.boots)
    case PruneMove(kept) =>
      n.(t := n.t.(sessions := kept), clock := now)
    case RestartMove(ids) =>
      n.(t := Rebooted(n.t), ids := ids, clock := now, boot := now, base := n.t.drawn, answered := n.t.replies)
  }

  /** Time does not run backwards, and a packet that names the other node as its
      sender is genuine only if that node sent it. */
  ghost predicate Legal(n: Node, other: Node, move: Move, now: Time) {
    n.clock <= now && other.clock <= now && match move
    case StartMove(_) => true
    case SealMove(_, _) => true
    case ReceiveMove(p, genuine, _) => genuine ==> WellFormed(p) && (p.from == other.t.self ==> p in other.h.sent)
    case PruneMove(kept) => Prunes(n, kept)
    case RestartMove(ids) => Injective(ids)
  }

  ghost predicate Prunes(n: Node, kept: map<Id, Session>) {
    kept.Keys <= n.t.sessions.Keys && forall id :: id in kept ==> kept[id] == n.t.sessions[id].(unused := kept[id].unused)
  }

  /** The table's own pruning is one. */
  lemma PrunedPrunes(n: Node, used: set<Id>, now: Time)
    ensures Prunes(n, Pruned(Unexpired(n.t.sessions, now), used, now))
  {
  }

  ghost predicate Distinct(s: seq<Packet>) {
    forall i, j :: 0 <= i < j < |s| ==> s[i] != s[j]
  }

  /** No counter is sealed twice under the same keys. */
  ghost predicate CountersDiffer(h: History) {
    forall p, q :: p in h.sent && q in h.sent && p.Data? && q.Data? && p.keys == q.keys && p.counter == q.counter ==> p == q
  }

  ghost predicate NodeFits(n: Node) {
    && n.t.self !in n.peers && Fits(n.t, n.clock, n.h)
    && Distinct(n.delivered) && (forall i :: 0 <= i < |n.delivered| ==> n.delivered[i] in n.h.got && n.delivered[i].Data?)
    && CountersDiffer(n.h)
  }

  /** Everything `a` accepted from `b` was sent by `b`, no later. */
  ghost predicate Authentic(a: Node, b: Node) {
    forall p :: p in a.h.got && p.from == b.t.self ==> p in b.h.sent && b.h.sent[p] <= a.h.got[p]
  }

  ghost predicate PairFits(a: Node, b: Node) {
    a.t.self != b.t.self && NodeFits(a) && NodeFits(b) && Authentic(a, b) && Authentic(b, a)
  }

  /** Sessions end in time, IDs do not repeat and no live session was replaced. */
  ghost predicate Orderly(n: Node) {
    LivesFit(n.t.sessions, n.clock, n.born) && Injective(n.ids) && Increasing(n.started, n.t.serial) && !n.overwritten
  }

  lemma MoveIsOrderly(n: Node, move: Move, now: Time)
    requires NodeFits(n) && Orderly(n) && n.clock <= now
    requires (move.PruneMove? ==> Prunes(n, move.kept)) && (move.RestartMove? ==> Injective(move.ids))
    ensures Orderly(Moved(n, move, now))
  {
    match move
    case StartMove(peer) => StartIsOrderly(n, peer, now);
    case SealMove(id, body) =>
      SealLives(n.t, n.clock, n.born, id, body, now);
      SealPreserves(n.t, id, body, now);
    case ReceiveMove(p, genuine, admitted) => ReceiveIsOrderly(n, p, genuine, admitted, now);
    case PruneMove(kept) => PruneLives(n.t, n.clock, n.born, kept, now);
    case RestartMove(ids) =>
      var n' := Moved(n, move, now);
      assert n'.t.sessions == map[] && n'.started == [] && !Overwrites(n.t, n'.t, now);
      forall id ensures LifeAt(n'.t.sessions, now, n'.born, id) {}
  }

  lemma StartIsOrderly(n: Node, peer: Key, now: Time)
    requires NodeFits(n) && Orderly(n) && n.clock <= now
    ensures Orderly(Moved(n, StartMove(peer), now))
  {
    var next := n.ids(n.t.serial + 1);
    var r := StartStep(n.t, n.peers, next, peer, now);
    StartLives(n.t, n.clock, n.h, n.born, n.peers, next, peer, now);
    StartPreserves(n.t, n.peers, next, peer, now);
    SerialsIncrease(n.t, n.peers, next, peer, now, n.started);
    PreservesMeansNoOverwriting(n.t, r.0, now);
    StartRecorded(n, peer, now);
  }

  lemma StartRecorded(n: Node, peer: Key, now: Time)
    ensures var n', r := Moved(n, StartMove(peer), now), StartStep(n.t, n.peers, n.ids(n.t.serial + 1), peer, now);
      && n'.t == r.0 && n'.born == Births(n.t, r.0, n.born, now) && n'.clock == now && n'.ids == n.ids
      && n'.started == (if r.1.Some? then n.started + [n.t.serial + 1] else n.started)
      && n'.overwritten == (n.overwritten || Overwrites(n.t, r.0, now))
  {
  }

  lemma PreservesMeansNoOverwriting(t: Table, t': Table, now: Time)
    requires Preserves(t, t', now)
    ensures !Overwrites(t, t', now)
  {
  }

  lemma ReceiveIsOrderly(n: Node, p: Packet, genuine: bool, admitted: bool, now: Time)
    requires NodeFits(n) && Orderly(n) && n.clock <= now
    ensures Orderly(Moved(n, ReceiveMove(p, genuine, admitted), now))
  {
    ReceiveLives(n.t, n.clock, n.h, n.born, n.peers, p, genuine, admitted, now);
    ReceivePreserves(n.t, n.peers, p, genuine, admitted, now);
    assert Stepped(n, ReceiveMove(p, genuine, admitted), now).t.serial == n.t.serial;
  }

  /** What was sent stays sent, at the same time. */
  ghost predicate StaysSent(h: History, h': History) {
    forall p :: p in h.sent ==> p in h'.sent && h'.sent[p] == h.sent[p]
  }

  /** A node that has sent at most one packet more, data only under a new counter. */
  lemma SendingFits(n: Node, t: Table, r: Option<Packet>, now: Time)
    requires NodeFits(n) && t.self == n.t.self && Fits(t, now, RecordSent(n.h, r, now))
    requires r.Some? ==> r.value !in n.h.sent && (r.value.Data? ==> SealedBelow(n.h, r.value.keys, r.value.counter))
    ensures var n' := n.(t := t, h := RecordSent(n.h, r, now), clock := now);
      NodeFits(n') && n'.h.got == n.h.got && StaysSent(n.h, n'.h)
  {
  }

  lemma StartStepped(n: Node, peer: Key, now: Time) returns (t: Table, r: Option<Packet>)
    ensures (t, r) == StartStep(n.t, n.peers, n.ids(n.t.serial + 1), peer, now) && t.self == n.t.self && (r.Some? ==> r.value.Request?)
    ensures Stepped(n, StartMove(peer), now) == n.(t := t, h := RecordSent(n.h, r, now), clock := now)
  {
    var (t', r') := StartStep(n.t, n.peers, n.ids(n.t.serial + 1), peer, now);
    t, r := t', r';
  }

  lemma NodeStarts(n: Node, peer: Key, now: Time)
    requires NodeFits(n) && n.clock <= now
    ensures var n' := Stepped(n, StartMove(peer), now); NodeFits(n') && n'.h.got == n.h.got && StaysSent(n.h, n'.h)
  {
    var t, r := StartStepped(n, peer, now);
    StartStepFits(n.t, n.clock, n.h, n.peers, n.ids(n.t.serial + 1), peer, now);
    SendingFits(n, t, r, now);
  }

  lemma NodeSeals(n: Node, id: Id, body: Body, now: Time)
    requires NodeFits(n) && n.clock <= now
    ensures var n' := Stepped(n, SealMove(id, body), now); NodeFits(n') && n'.h.got == n.h.got && StaysSent(n.h, n'.h)
  {
    var (t, r) := SealStep(n.t, id, body, now);
    SealStepFits(n.t, n.clock, n.h, id, body, now);
    SendingFits(n, t, r, now);
  }

  /** A node that has accepted at most one packet more. */
  lemma ReceivingFits(n: Node, n': Node, p: Packet, genuine: bool, delivered: bool, now: Time)
    requires NodeFits(n) && n'.t.self == n.t.self && n'.peers == n.peers && Fits(n'.t, n'.clock, n'.h) && OnlyAdds(n.h, n'.h, p, genuine, now)
    requires n'.delivered == if delivered then n.delivered + [p] else n.delivered
    requires delivered ==> p.Data? && p !in n.h.got && p in n'.h.got
    ensures NodeFits(n')
  {
    assert forall i :: 0 <= i < |n.delivered| ==> n.delivered[i] in n.h.got;
  }

  lemma NodeReceives(n: Node, p: Packet, genuine: bool, admitted: bool, now: Time)
    requires NodeFits(n) && n.clock <= now && (genuine ==> WellFormed(p))
    ensures var n' := Stepped(n, ReceiveMove(p, genuine, admitted), now);
      NodeFits(n') && OnlyAdds(n.h, n'.h, p, genuine, now)
  {
    var (t, e) := ReceiveStep(n.t, n.peers, p, genuine, admitted, now);
    ReceiveStepFits(n.t, n.clock, n.h, n.peers, p, genuine, admitted, now);
    ReceivingFits(n, Stepped(n, ReceiveMove(p, genuine, admitted), now), p, genuine, e.Delivered?, now);
  }

  lemma NodePrunes(n: Node, kept: map<Id, Session>, now: Time)
    requires NodeFits(n) && n.clock <= now && kept.Keys <= n.t.sessions.Keys
    requires forall id :: id in kept ==> kept[id] == n.t.sessions[id].(unused := kept[id].unused)
    ensures NodeFits(Stepped(n, PruneMove(kept), now))
  {
    FewerSessionsFit(n.t, n.clock, n.h, kept, now);
  }

  lemma StepKeeps(a: Node, b: Node, move: Move, now: Time)
    requires PairFits(a, b) && Legal(a, b, move, now)
    ensures PairFits(Stepped(a, move, now), b)
  {
    match move
    case StartMove(peer) => NodeStarts(a, peer, now);
    case SealMove(id, body) => NodeSeals(a, id, body, now);
    case ReceiveMove(p, genuine, admitted) => ReceiveKeeps(a, b, p, genuine, admitted, now);
    case PruneMove(kept) => NodePrunes(a, kept, now);
    case RestartMove(ids) => RebootHere(a.t, a.clock, a.h, now);
  }

  lemma ReceiveKeeps(a: Node, b: Node, p: Packet, genuine: bool, admitted: bool, now: Time)
    requires PairFits(a, b) && Legal(a, b, ReceiveMove(p, genuine, admitted), now)
    ensures PairFits(Stepped(a, ReceiveMove(p, genuine, admitted), now), b)
  {
    NodeReceives(a, p, genuine, admitted, now);
    assert SentRightly(At(b.t, b.clock), b.h, p);
  }

  /** The node's sessions are of its present process, and what any of its processes
      accepted from `b` was sealed after that process had started. */
  ghost predicate Current(a: Node, b: Node) {
    && Here(a.t, a.h, a.base, a.answered, a.boot) && a.boot <= a.clock
    && forall p :: p in a.boots && p.from == b.t.self ==> p in b.h.sent && a.boots[p] <= b.h.sent[p]
  }

  function LineOf(p: Packet): Line
    requires p.Data?
  {
    Line(p.keys, p.counter, p.body)
  }

  ghost predicate LineSent(h: History, line: Line) {
    exists p :: p in h.sent && p.Data? && LineOf(p) == line
  }

  predicate SameNumber(x: Line, y: Line) {
    x.keys == y.keys && x.counter == y.counter
  }

  /** No two seals have the same keys and counter, they are what was sent, and what
      was handed out is what was delivered. */
  ghost predicate Booked(n: Node) {
    && (forall p :: p in n.h.sent && p.Data? ==> LineOf(p) in n.seals)
    && (forall j :: 0 <= j < |n.seals| ==> LineSent(n.h, n.seals[j]))
    && (forall j, k :: 0 <= j < k < |n.seals| ==> !SameNumber(n.seals[j], n.seals[k]))
    && |n.receipts| == |n.delivered|
    && (forall i :: 0 <= i < |n.delivered| ==> n.delivered[i].Data? && n.receipts[i] == Receipt(n.delivered[i].from, LineOf(n.delivered[i])))
  }

  /** Sealing adds the line that was sent, under a number not sent before. */
  lemma SealingIsBooked(n: Node, n': Node, p: Packet)
    requires Booked(n) && p.Data? && SealedBelow(n.h, p.keys, p.counter)
    requires n'.h.sent.Keys == n.h.sent.Keys + {p} && n'.seals == n.seals + [LineOf(p)]
    requires n'.receipts == n.receipts && n'.delivered == n.delivered
    ensures Booked(n')
  {
    forall j | 0 <= j < |n'.seals| ensures LineSent(n'.h, n'.seals[j]) {
      if j < |n.seals| {
        assert LineSent(n.h, n.seals[j]);
        var q :| q in n.h.sent && q.Data? && LineOf(q) == n.seals[j];
        assert q in n'.h.sent;
      } else {
        assert p in n'.h.sent;
      }
    }
    forall j, k | 0 <= j < k < |n'.seals| ensures !SameNumber(n'.seals[j], n'.seals[k]) {
      assert LineSent(n.h, n.seals[j]);
    }
  }

  /** No data is sent otherwise. */
  lemma OthersAreBooked(n: Node, n': Node)
    requires Booked(n) && n'.seals == n.seals && StaysSent(n.h, n'.h)
    requires forall p :: p in n'.h.sent && p.Data? ==> p in n.h.sent
    requires |n'.receipts| == |n'.delivered|
    requires forall i :: 0 <= i < |n'.delivered| ==> n'.delivered[i].Data? && n'.receipts[i] == Receipt(n'.delivered[i].from, LineOf(n'.delivered[i]))
    ensures Booked(n')
  {
    forall j | 0 <= j < |n'.seals| ensures LineSent(n'.h, n'.seals[j]) {
      assert LineSent(n.h, n.seals[j]);
      var q :| q in n.h.sent && q.Data? && LineOf(q) == n.seals[j];
      assert q in n'.h.sent;
    }
  }

  lemma MoveIsBooked(n: Node, move: Move, now: Time)
    requires NodeFits(n) && Booked(n) && n.clock <= now && (move.ReceiveMove? && move.genuine ==> WellFormed(move.p))
    ensures Booked(Moved(n, move, now))
  {
    match move
    case StartMove(peer) => StartIsBooked(n, peer, now);
    case SealMove(id, body) => SealIsBooked(n, id, body, now);
    case ReceiveMove(p, genuine, admitted) => ReceiveIsBooked(n, p, genuine, admitted, now);
    case PruneMove(kept) => OthersAreBooked(n, Moved(n, move, now));
    case RestartMove(ids) => OthersAreBooked(n, Moved(n, move, now));
  }

  lemma StartIsBooked(n: Node, peer: Key, now: Time)
    requires NodeFits(n) && Booked(n) && n.clock <= now
    ensures Booked(Moved(n, StartMove(peer), now))
  {
    NodeStarts(n, peer, now);
    var t, r := StartStepped(n, peer, now);
    OthersAreBooked(n, Moved(n, StartMove(peer), now));
  }

  lemma SealIsBooked(n: Node, id: Id, body: Body, now: Time)
    requires NodeFits(n) && Booked(n) && n.clock <= now
    ensures Booked(Moved(n, SealMove(id, body), now))
  {
    NodeSeals(n, id, body, now);
    SealStepFits(n.t, n.clock, n.h, id, body, now);
    var r := SealStep(n.t, id, body, now).1;
    var n' := Moved(n, SealMove(id, body), now);
    if r.Some? { SealingIsBooked(n, n', r.value); } else { OthersAreBooked(n, n'); }
  }

  lemma ReceiveIsBooked(n: Node, p: Packet, genuine: bool, admitted: bool, now: Time)
    requires NodeFits(n) && Booked(n) && n.clock <= now && (genuine ==> WellFormed(p))
    ensures Booked(Moved(n, ReceiveMove(p, genuine, admitted), now))
  {
    NodeReceives(n, p, genuine, admitted, now);
    var (t, e) := ReceiveStep(n.t, n.peers, p, genuine, admitted, now);
    HandedOut(n.t, n.peers, p, genuine, admitted, now);
    OthersAreBooked(n, Moved(n, ReceiveMove(p, genuine, admitted), now));
  }

  /** Only data is delivered, and its own body. */
  lemma HandedOut(t: Table, peers: set<Key>, p: Packet, genuine: bool, admitted: bool, now: Time)
    ensures var e := ReceiveStep(t, peers, p, genuine, admitted, now).1; e.Delivered? ==> p.Data? && e.body == p.body
  {
  }

  /** Both nodes in all respects. */
  ghost predicate BothFit(a: Node, b: Node) {
    PairFits(a, b) && Orderly(a) && Orderly(b) && Current(a, b) && Current(b, a) && Booked(a) && Booked(b)
  }

  /** Data that a session of this process can open was sealed after the process
      started: its keys hang on randomness that this process sent out first. */
  lemma SealedSince(a: Node, b: Node, p: Packet)
    requires PairFits(a, b) && Current(a, b) && p.Data? && p.to == a.t.self && p.from == b.t.self && p in b.h.sent
    requires p.id in a.t.sessions && a.t.sessions[p.id].keys == Some(p.keys) && a.t.sessions[p.id].peer == p.from
    ensures a.boot <= b.h.sent[p]
  {
    var ma, mb, s := At(a.t, a.clock), At(b.t, b.clock), a.t.sessions[p.id];
    assert SessionFits(ma, a.h, s) && SentRightly(mb, b.h, p);
    assert SessionHere(a.t, a.base, a.answered, p.id) && AnsweredSince(a.h, a.base, a.answered, a.boot, s.nonce);
    if s.nonce.Answered? {
      var q :| ReplyWith(b.h, q, p.keys) && b.h.got[q] <= b.h.sent[p] && q.from == p.to;
      assert SentRightly(ma, a.h, q);
    } else {
      var q :| GotUnder(b.h, q, p.keys) && b.h.got[q] <= b.h.sent[p] && q.from == p.to;
      assert SentRightly(ma, a.h, q);
    }
  }

  lemma ReceiveIsCurrent(a: Node, b: Node, p: Packet, genuine: bool, admitted: bool, now: Time)
    requires PairFits(a, b) && Current(a, b) && Legal(a, b, ReceiveMove(p, genuine, admitted), now)
    ensures Current(Stepped(a, ReceiveMove(p, genuine, admitted), now), b)
  {
    ReceiveHere(a.t, a.h, a.base, a.answered, a.boot, a.peers, p, genuine, admitted, now);
    if ReceiveStep(a.t, a.peers, p, genuine, admitted, now).1.Delivered? && p.from == b.t.self {
      SealedSince(a, b, p);
    }
  }

  lemma StepIsCurrent(a: Node, b: Node, move: Move, now: Time)
    requires PairFits(a, b) && Current(a, b) && Legal(a, b, move, now)
    ensures Current(Stepped(a, move, now), b)
  {
    match move
    case StartMove(peer) => StartHere(a.t, a.h, a.base, a.answered, a.boot, a.peers, a.ids(a.t.serial + 1), peer, now);
    case SealMove(id, body) => SealHere(a.t, a.h, a.base, a.answered, a.boot, id, body, now);
    case ReceiveMove(p, genuine, admitted) => ReceiveIsCurrent(a, b, p, genuine, admitted, now);
    case PruneMove(kept) => PruneHere(a.t, a.h, a.base, a.answered, a.boot, kept);
    case RestartMove(ids) => RestartIsCurrent(a, b, ids, now);
  }

  lemma RestartIsCurrent(a: Node, b: Node, ids: nat -> Id, now: Time)
    requires PairFits(a, b) && Current(a, b) && a.clock <= now
    ensures Current(Stepped(a, RestartMove(ids), now), b)
  {
    RebootHere(a.t, a.clock, a.h, now);
  }

  lemma SentStays(a: Node, b: Node, move: Move, now: Time)
    requires PairFits(a, b) && Legal(a, b, move, now)
    ensures StaysSent(a.h, Stepped(a, move, now).h)
  {
    match move
    case StartMove(peer) => NodeStarts(a, peer, now);
    case SealMove(id, body) => NodeSeals(a, id, body, now);
    case ReceiveMove(p, genuine, admitted) => NodeReceives(a, p, genuine, admitted, now);
    case PruneMove(_) =>
    case RestartMove(_) =>
  }

  lemma OtherStaysCurrent(b: Node, a: Node, a': Node)
    requires Current(b, a) && StaysSent(a.h, a'.h) && a'.t.self == a.t.self
    ensures Current(b, a')
  {
  }

  /** The table, the history and the clock are what an operation is about; the rest
      is bookkeeping. */
  lemma Bookkeeping(n: Node, n': Node, b: Node)
    requires n' == n.(born := n'.born, overwritten := n'.overwritten, started := n'.started, seals := n'.seals, receipts := n'.receipts)
    ensures (PairFits(n, b) ==> PairFits(n', b)) && (Current(n, b) ==> Current(n', b)) && (Current(b, n) ==> Current(b, n'))
  {
  }

  lemma StepKeepsBoth(a: Node, b: Node, move: Move, now: Time)
    requires BothFit(a, b) && Legal(a, b, move, now)
    ensures var a' := Stepped(a, move, now); PairFits(a', b) && Current(a', b) && Current(b, a')
  {
    StepKeeps(a, b, move, now);
    StepIsCurrent(a, b, move, now);
    SentStays(a, b, move, now);
    OtherStaysCurrent(b, a, Stepped(a, move, now));
  }

  lemma MoveKeeps(a: Node, b: Node, move: Move, now: Time)
    requires BothFit(a, b) && Legal(a, b, move, now)
    ensures BothFit(Moved(a, move, now), b)
  {
    StepKeepsBoth(a, b, move, now);
    Bookkeeping(Stepped(a, move, now), Moved(a, move, now), b);
    MoveIsOrderly(a, move, now);
    MoveIsBooked(a, move, now);
  }

  /** One turn of a run: which node, what, and when. */
  datatype Turn = Turn(first: bool, move: Move, now: Time)

  ghost function Run(a: Node, b: Node, turns: seq<Turn>): (Node, Node)
    decreases |turns|
  {
    if turns == [] then (a, b)
    else if turns[0].first then Run(Moved(a, turns[0].move, turns[0].now), b, turns[1..])
    else Run(a, Moved(b, turns[0].move, turns[0].now), turns[1..])
  }

  ghost predicate LegalRun(a: Node, b: Node, turns: seq<Turn>)
    decreases |turns|
  {
    turns == [] ||
    (if turns[0].first then
       Legal(a, b, turns[0].move, turns[0].now) && LegalRun(Moved(a, turns[0].move, turns[0].now), b, turns[1..])
     else
       Legal(b, a, turns[0].move, turns[0].now) && LegalRun(a, Moved(b, turns[0].move, turns[0].now), turns[1..]))
  }

  lemma {:induction false} RunKeeps(a: Node, b: Node, turns: seq<Turn>)
    requires BothFit(a, b) && LegalRun(a, b, turns)
    ensures var (a', b') := Run(a, b, turns); BothFit(a', b')
    decreases |turns|
  {
    if turns != [] {
      var turn := turns[0];
      if turn.first {
        MoveKeeps(a, b, turn.move, turn.now);
        RunKeeps(Moved(a, turn.move, turn.now), b, turns[1..]);
      } else {
        MoveKeeps(b, a, turn.move, turn.now);
        RunKeeps(a, Moved(b, turn.move, turn.now), turns[1..]);
      }
    }
  }

  /** No data is accepted 610 seconds or more after it was sealed. */
  lemma DelayBound(a: Node, b: Node, p: Packet)
    requires PairFits(a, b) && p in a.h.got && p.Data? && p.from == b.t.self
    ensures p in b.h.sent && a.h.got[p] < b.h.sent[p] + 610 * SECOND
  {
    var ma, mb := At(a.t, a.clock), At(b.t, b.clock);
    assert GotRightly(ma, a.h, p) && SentRightly(mb, b.h, p);
    if p.keys.initiator.node == b.t.self {
      var q :| ReplyWith(b.h, q, p.keys) && b.h.got[q] <= b.h.sent[p] && q.from == p.to;
      assert SentRightly(ma, a.h, q);
    } else {
      var q :| GotUnder(b.h, q, p.keys) && b.h.got[q] <= b.h.sent[p] && q.from == p.to;
      assert SentRightly(ma, a.h, q);
    }
  }

  ghost function NewNode(self: Key, peers: set<Key>, ids: nat -> Id): Node {
    Node(Table(self, 0, map[], 0, 0), peers, ids, History(map[], map[], map[], map[], map[]), 0, [], map[], [], false, 0, 0, 0, map[], [], [])
  }

  lemma NewPairFits(a: Node, b: Node, x: Key, y: Key, ps: set<Key>, qs: set<Key>, ids: nat -> Id, jds: nat -> Id)
    requires x != y && x !in ps && y !in qs && Injective(ids) && Injective(jds) && a == NewNode(x, ps, ids) && b == NewNode(y, qs, jds)
    ensures BothFit(a, b)
  {
    NewNodeFits(a, x, ps, ids);
    NewNodeFits(b, y, qs, jds);
  }

  lemma NewNodeFits(n: Node, x: Key, ps: set<Key>, ids: nat -> Id)
    requires x !in ps && Injective(ids) && n == NewNode(x, ps, ids)
    ensures NodeFits(n) && Orderly(n) && Here(n.t, n.h, n.base, n.answered, n.boot) && n.h.got == map[] && n.boots == map[] && Booked(n)
  {
  }

  /** Each body sealed by `b` is delivered at `a` at most once, in whichever process, no
      earlier than it was sealed, less than 610 seconds later, and not if it was
      sealed before the process that accepts it had started. */
  ghost predicate DeliveredOnce(a: Node, b: Node) {
    && Distinct(a.delivered)
    && (forall p :: p in a.boots && p.from == b.t.self ==> p in b.h.sent && a.boots[p] <= b.h.sent[p])
    && forall i :: 0 <= i < |a.delivered| && a.delivered[i].from == b.t.self ==>
         var p := a.delivered[i]; p in b.h.sent && p in a.h.got && b.h.sent[p] <= a.h.got[p] < b.h.sent[p] + 610 * SECOND
  }

  /** Every body that `a` handed out as coming from `b` was given to `b` to be sealed, in
      exactly one call, and no other body was handed out for that call. */
  ghost predicate DeliveredAsSealed(a: Node, b: Node) {
    && (forall i :: 0 <= i < |a.receipts| && a.receipts[i].from == b.t.self ==> a.receipts[i].line in b.seals)
    && (forall j, k :: 0 <= j < k < |b.seals| ==> !SameNumber(b.seals[j], b.seals[k]))
    && (forall i, k :: 0 <= i < k < |a.receipts| && a.receipts[i].from == b.t.self == a.receipts[k].from ==>
          !SameNumber(a.receipts[i].line, a.receipts[k].line))
  }

  lemma BookedDelivers(a: Node, b: Node)
    requires BothFit(a, b)
    ensures DeliveredAsSealed(a, b)
  {
    forall i | 0 <= i < |a.receipts| && a.receipts[i].from == b.t.self ensures a.receipts[i].line in b.seals {
      assert a.delivered[i] in b.h.sent;
    }
    forall i, k | 0 <= i < k < |a.receipts| && a.receipts[i].from == b.t.self == a.receipts[k].from
      ensures !SameNumber(a.receipts[i].line, a.receipts[k].line)
    {
      assert a.delivered[i] in b.h.sent && a.delivered[k] in b.h.sent;
    }
  }

  /** Every session of `a` ends less than 610 seconds after it was created, no two that
      one process of `a` started had the same ID, and no live one was ever replaced. */
  ghost predicate SessionsInOrder(a: Node) {
    && (forall id :: id in a.t.sessions ==> id in a.born && a.t.sessions[id].expires < a.born[id] + 610 * SECOND)
    && (forall i, j :: 0 <= i < j < |a.started| ==> a.ids(a.started[i]) != a.ids(a.started[j]))
    && !a.overwritten && |a.t.sessions| <= 512 && (forall id :: id in a.t.sessions ==> |OfPeer(a.t.sessions, a.t.sessions[id].peer)| <= 64)
  }

  lemma OrderlySessions(a: Node)
    requires NodeFits(a) && Orderly(a)
    ensures SessionsInOrder(a)
  {
    forall id | id in a.t.sessions ensures id in a.born && a.t.sessions[id].expires < a.born[id] + 610 * SECOND {
      assert LifeAt(a.t.sessions, a.clock, a.born, id);
    }
    forall i, j | 0 <= i < j < |a.started| ensures a.ids(a.started[i]) != a.ids(a.started[j]) {
      IdsDiffer(a.ids, a.started, a.t.serial, i, j);
    }
  }

  /** Over every run: delivery of what was sealed, no counter sealed twice under one pair of keys, and
      order among the sessions of either node. */
  lemma ChannelSafety(x: Key, y: Key, ps: set<Key>, qs: set<Key>, ids: nat -> Id, jds: nat -> Id, turns: seq<Turn>)
    requires x != y && x !in ps && y !in qs && Injective(ids) && Injective(jds)
    requires LegalRun(NewNode(x, ps, ids), NewNode(y, qs, jds), turns)
    ensures var (a, b) := Run(NewNode(x, ps, ids), NewNode(y, qs, jds), turns);
      && DeliveredOnce(a, b) && DeliveredAsSealed(a, b) && CountersDiffer(a.h) && SessionsInOrder(a)
      && DeliveredOnce(b, a) && DeliveredAsSealed(b, a) && CountersDiffer(b.h) && SessionsInOrder(b)
  {
    NewPairFits(NewNode(x, ps, ids), NewNode(y, qs, jds), x, y, ps, qs, ids, jds);
    RunKeeps(NewNode(x, ps, ids), NewNode(y, qs, jds), turns);
    var (a, b) := Run(NewNode(x, ps, ids), NewNode(y, qs, jds), turns);
    PairDelivers(a, b);
    PairDelivers(b, a);
    BookedDelivers(a, b);
    BookedDelivers(b, a);
    OrderlySessions(a);
    OrderlySessions(b);
  }

  lemma PairDelivers(a: Node, b: Node)
    requires BothFit(a, b)
    ensures DeliveredOnce(a, b)
  {
    forall i | 0 <= i < |a.delivered| && a.delivered[i].from == b.t.self
      ensures var p := a.delivered[i]; p in b.h.sent && p in a.h.got && b.h.sent[p] <= a.h.got[p] < b.h.sent[p] + 610 * SECOND
    {
      DelayBound(a, b, a.delivered[i]);
    }
  }
}
