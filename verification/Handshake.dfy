/** What secure.go is for: a request and its answer set up a session at both nodes, and
    what either then seals under its ID the other delivers. */
module Handshake {
  import opened Common
  import opened Replay
  import opened Sessions

  /** Both nodes hold the keys of one handshake under one ID. */
  ghost predicate Paired(a: Table, b: Table, id: Id, now: Time) {
    && id != ZERO_ID && a.self != b.self && id in a.sessions && id in b.sessions
    && a.sessions[id].peer == b.self && b.sessions[id].peer == a.self
    && a.sessions[id].keys.Some? && a.sessions[id].keys == b.sessions[id].keys
    && Live(a.sessions[id], now) && Live(b.sessions[id], now)
  }

  /** The next counter of `a` is new to `b`. */
  ghost predicate NextIsNew(a: Table, b: Table, id: Id)
    requires id in a.sessions && id in b.sessions
  {
    a.sessions[id].next <= MAX_NONCE && Unseen(b.sessions[id].highest, b.sessions[id].window, a.sessions[id].next)
  }

  /** Who can start a session with whom under the next ID. */
  ghost predicate CanStart(t: Table, peers: set<Key>, peer: Key, id: Id, now: Time) {
    && peer in peers && peer != t.self && id != ZERO_ID && id !in Unexpired(t.sessions, now)
    && HasRoom(Unexpired(t.sessions, now), peer)
  }

  /** A body sealed under the ID is delivered, once both nodes hold the keys; then both
      are confirmed, if the sender was. */
  lemma SealedIsDelivered(a: Table, b: Table, ps: set<Key>, id: Id, body: Body, at: Time, now: Time)
    requires Paired(a, b, id, at) && Live(b.sessions[id], now) && at <= now && a.self in ps && NextIsNew(a, b, id)
    requires a.sessions[id].ready && 0 < |body| <= MAX_BODY
    ensures var (a', r) := SealStep(a, id, body, at);
      && r.Some? && r.value.from == a.self && r.value.to == b.self && r.value.id == id
      && var (b', e) := ReceiveStep(b, ps, r.value, true, true, now);
         && e == Delivered(body) && id in b'.sessions && b'.sessions[id].ready && b'.sessions[id].keys == b.sessions[id].keys
         && b'.sessions[id].peer == a.self && b'.sessions[id].next == b.sessions[id].next && Live(b'.sessions[id], now)
         && id in a'.sessions && a'.sessions[id] == a.sessions[id].(next := a.sessions[id].next + 1)
  {
  }

  /** A request answered in time, and the answer in time: both hold the same keys. */
  lemma HandshakeCompletes(a: Table, b: Table, ps: set<Key>, qs: set<Key>, id: Id, sent: Time, asked: Time, told: Time) returns (a': Table, b': Table)
    requires CanStart(a, ps, b.self, id, sent) && a.serial < MAX_SERIAL && CanStart(b, qs, a.self, id, asked)
    requires sent <= asked <= told < sent + PENDING
    ensures var (a1, r) := StartStep(a, ps, id, b.self, sent);
      && r.Some?
      && var (b1, e) := ReceiveStep(b, qs, r.value, true, true, asked);
         && e.Answer? && b1 == b'
         && var (a2, e') := ReceiveStep(a1, ps, e.reply, true, true, told); e' == Confirmed && a2 == a'
    ensures a'.self == a.self && b'.self == b.self && Paired(a', b', id, told)
    ensures a'.sessions[id].ready && a'.sessions[id].expires == told + LIFETIME && b'.sessions[id].expires == asked + PENDING
    ensures NextIsNew(a', b', id) && NextIsNew(b', a', id) && a'.sessions[id].next == b'.sessions[id].next == 0
  {
    var (a1, r) := StartStep(a, ps, id, b.self, sent);
    var (b1, e) := ReceiveStep(b, qs, r.value, true, true, asked);
    var (a2, e') := ReceiveStep(a1, ps, e.reply, true, true, told);
    a', b' := a2, b1;
  }

  /** One handshake, then data in both directions. */
  lemma HandshakeCarries(a: Table, b: Table, ps: set<Key>, qs: set<Key>, id: Id, times: seq<Time>, ask: Body, answer: Body)
    requires |times| == 7 && (forall i, j :: 0 <= i < j < 7 ==> times[i] <= times[j]) && times[6] < times[0] + PENDING
    requires CanStart(a, ps, b.self, id, times[0]) && a.serial < MAX_SERIAL && CanStart(b, qs, a.self, id, times[1])
    requires 0 < |ask| <= MAX_BODY && 0 < |answer| <= MAX_BODY
    ensures var (a1, r) := StartStep(a, ps, id, b.self, times[0]);
      && r.Some?
      && var (b1, e) := ReceiveStep(b, qs, r.value, true, true, times[1]);
         && e.Answer?
         && var a2 := ReceiveStep(a1, ps, e.reply, true, true, times[2]).0;
            var (a3, p) := SealStep(a2, id, ask, times[3]);
            && p.Some?
            && var (b2, d) := ReceiveStep(b1, qs, p.value, true, true, times[4]);
               && d == Delivered(ask)
               && var q := SealStep(b2, id, answer, times[5]).1;
                  && q.Some? && ReceiveStep(a3, ps, q.value, true, true, times[6]).1 == Delivered(answer)
  {
    var a2, b1 := HandshakeCompletes(a, b, ps, qs, id, times[0], times[1], times[2]);
    SealedIsDelivered(a2, b1, qs, id, ask, times[3], times[4]);
    var (a3, p) := SealStep(a2, id, ask, times[3]);
    var b2 := ReceiveStep(b1, qs, p.value, true, true, times[4]).0;
    SealedIsDelivered(b2, a3, ps, id, answer, times[5], times[6]);
  }
}
