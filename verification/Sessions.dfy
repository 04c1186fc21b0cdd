/** The session table of secure.go as a value, over ideal Noise handshakes and authenticated
    encryption: a genuine packet is one its named sender really sent, and it opens
    only under the keys it was sealed with. */
module Sessions {
  import opened Common
  import opened Replay

  type Id = nat

  const ZERO_ID: Id := 0
  const PENDING: Time := 10 * SECOND
  const LIFETIME: Time := 600 * SECOND
  const MAX_NONCE: nat := 0xFFFF_FFFF_FFFF_FFFE // The last nonce is reserved.
  const MAX_BODY: nat := 364
  const MAX_SESSIONS: nat := 512
  const MAX_PEER_SESSIONS: nat := 64

  /** The fresh randomness one side adds to a handshake. */
  datatype Nonce = Started(node: Key, n: nat) | Answered(node: Key, n: nat)

  /** The keys of one completed handshake. */
  datatype Keys = Keys(initiator: Nonce, responder: Nonce)

  type Body = seq<int>

  datatype Packet =
    | Request(from: Key, to: Key, id: Id, nonce: Nonce)
    | Reply(from: Key, to: Key, id: Id, keys: Keys)
    | Data(from: Key, to: Key, id: Id, keys: Keys, counter: nat, body: Body)

  datatype Session = Session(
    peer: Key, nonce: Nonce, keys: Option<Keys>, next: nat, highest: nat, window: nat,
    expires: Time, unused: Option<Time>, ready: bool)

  /* ----- the session table ----- */

  predicate Live(s: Session, now: Time) {
    now < s.expires
  }

  function Unexpired(sessions: map<Id, Session>, now: Time): map<Id, Session> {
    map id | id in sessions && Live(sessions[id], now) :: sessions[id]
  }

  function OfPeer(sessions: map<Id, Session>, peer: Key): set<Id> {
    set id | id in sessions && sessions[id].peer == peer
  }

  predicate HasRoom(sessions: map<Id, Session>, peer: Key) {
    |sessions| < MAX_SESSIONS && |OfPeer(sessions, peer)| < MAX_PEER_SESSIONS
  }

  /** What a node keeps for its proofs: when it first sent or accepted a packet,
      when it answered a handshake or completed its own, and the counters accepted
      under each pair of keys. */
  datatype History = History(
    sent: map<Packet, Time>, got: map<Packet, Time>, answered: map<Nonce, Time>, completed: map<Nonce, Time>,
    accepted: map<Keys, set<nat>>)

  /** Who keeps the history, how much randomness it has drawn, and the time. */
  datatype Marks = Marks(self: Key, serial: nat, replies: nat, clock: Time)

  predicate Later(m: Marks, m': Marks) {
    m'.self == m.self && m.serial <= m'.serial && m.replies <= m'.replies && m.clock <= m'.clock
  }

  /** Randomness already drawn, if it is this node's. */
  ghost predicate Drawn(m: Marks, k: Nonce) {
    k.node == m.self ==> match k case Started(_, n) => n <= m.serial case Answered(_, n) => n <= m.replies
  }

  /** Every counter sealed under these keys is below `next`. */
  ghost predicate SealedBelow(h: History, keys: Keys, next: nat) {
    forall p :: p in h.sent && p.Data? && p.keys == keys ==> p.counter < next
  }

  ghost predicate GotUnder(h: History, p: Packet, k: Keys) {
    p.Data? && p in h.got && p.keys == k
  }

  ghost predicate ReplyWith(h: History, q: Packet, k: Keys) {
    q.Reply? && q in h.got && q.keys == k
  }

  /** One session is as old as its timers say, and its window tracks what was
      accepted under its keys. */
  ghost predicate SessionFits(m: Marks, h: History, s: Session) {
    && s.peer != m.self && s.next <= MAX_NONCE + 1
    && s.nonce.node == m.self && Drawn(m, s.nonce)
    && (s.ready ==> s.keys.Some?)
    && (if s.keys.Some? then
          s.keys.value in h.accepted && Tracks(s.highest, s.window, h.accepted[s.keys.value]) && SealedBelow(h, s.keys.value, s.next)
        else
          s.highest == 0 && s.window == 0 && s.nonce.Started? && s.nonce !in h.completed && forall k :: k in h.accepted ==> k.initiator != s.nonce)
    && (if s.nonce.Started? then StartedFits(h, s) else AnsweredFits(h, s))
  }

  ghost predicate StartedFits(h: History, s: Session) {
    s.keys.Some? ==>
      && s.ready && s.keys.value.initiator == s.nonce && s.keys.value.responder.node == s.peer
      && s.nonce in h.completed && s.expires == h.completed[s.nonce] + LIFETIME
      && exists q :: ReplyWith(h, q, s.keys.value)
  }

  ghost predicate AnsweredFits(h: History, s: Session) {
    && s.keys.Some? && s.keys.value.responder == s.nonce && s.keys.value.initiator.node == s.peer
    && s.nonce in h.answered
    && s.expires < h.answered[s.nonce] + PENDING + LIFETIME
    && (!s.ready ==> s.expires <= h.answered[s.nonce] + PENDING)
    && (s.ready ==> exists p :: GotUnder(h, p, s.keys.value))
  }

  /** Why and when this node could send a packet. */
  ghost predicate SentRightly(m: Marks, h: History, p: Packet) {
    p in h.sent ==> h.sent[p] <= m.clock && p.from == m.self && p.to != m.self && match p
      case Request(_, _, _, nonce) => nonce.Started? && nonce.node == m.self && Drawn(m, nonce)
      case Reply(_, to, _, keys) =>
        keys.initiator.node == to && keys.responder.node == m.self && keys.responder in h.answered && h.answered[keys.responder] == h.sent[p]
      case Data(_, to, _, keys, _, _) =>
        if keys.initiator.node == m.self then
          && keys.initiator in h.completed && h.completed[keys.initiator] <= h.sent[p]
          && keys.responder.node == to
          && exists q :: ReplyWith(h, q, keys) && h.got[q] <= h.sent[p] && q.from == to
        else
          && keys.responder.node == m.self && keys.initiator.node == to
          && exists q :: GotUnder(h, q, keys) && h.got[q] <= h.sent[p] && q.from == to
  }

  /** When this node could accept a packet. */
  ghost predicate GotRightly(m: Marks, h: History, p: Packet) {
    p in h.got ==> h.got[p] <= m.clock && p.to == m.self && p.from != m.self && match p
      case Request(_, _, _, _) => true
      case Reply(from, _, _, keys) => keys.responder.node == from && keys in h.accepted
      case Data(from, _, _, keys, counter, _) =>
        && keys in h.accepted && counter in h.accepted[keys]
        && if keys.responder.node == m.self then
             keys.initiator.node == from && keys.responder in h.answered && h.got[p] < h.answered[keys.responder] + PENDING + LIFETIME
           else
             keys.responder.node == from && keys.initiator.node == m.self && keys.initiator in h.completed && h.got[p] < h.completed[keys.initiator] + LIFETIME
  }

  ghost predicate KeysDrawn(m: Marks, h: History, k: Keys) {
    k in h.accepted ==> Drawn(m, k.initiator) && Drawn(m, k.responder)
  }

  ghost predicate NonceDrawn(m: Marks, h: History, k: Nonce) {
    && (k in h.answered ==> k.node == m.self && Drawn(m, k))
    && (k in h.completed ==> k.node == m.self && Drawn(m, k) && h.completed[k] <= m.clock)
  }

  ghost predicate HistoryFits(m: Marks, h: History) {
    && (forall p {:trigger SentRightly(m, h, p)} :: SentRightly(m, h, p))
    && (forall p {:trigger GotRightly(m, h, p)} :: GotRightly(m, h, p))
    && (forall k {:trigger KeysDrawn(m, h, k)} :: KeysDrawn(m, h, k))
    && (forall k {:trigger NonceDrawn(m, h, k)} :: NonceDrawn(m, h, k))
  }

  predicate Capacity(sessions: map<Id, Session>) {
    |sessions| <= MAX_SESSIONS && forall id :: id in sessions ==> |OfPeer(sessions, sessions[id].peer)| <= MAX_PEER_SESSIONS
  }

  ghost predicate NoncesDiffer(sessions: map<Id, Session>, id: Id, id': Id) {
    id in sessions && id' in sessions && id != id' ==> sessions[id].nonce != sessions[id'].nonce
  }

  ghost predicate SessionsFit(m: Marks, h: History, sessions: map<Id, Session>) {
    && (forall id {:trigger SessionFits(m, h, sessions[id])} :: id in sessions ==> SessionFits(m, h, sessions[id]))
    && (forall id, id' {:trigger NoncesDiffer(sessions, id, id')} :: NoncesDiffer(sessions, id, id'))
  }

  /** The table of one process. The node's randomness is numbered through all its
      processes: `drawn` for handshakes it started, `replies` for those it answered. */
  datatype Table = Table(self: Key, drawn: nat, sessions: map<Id, Session>, serial: nat, replies: nat)

  function At(t: Table, clock: Time): Marks {
    Marks(t.self, t.drawn, t.replies, clock)
  }

  /** The table is within its limits, and the history explains it. */
  ghost predicate Fits(t: Table, clock: Time, h: History) {
    Capacity(t.sessions) && SessionsFit(At(t, clock), h, t.sessions) && HistoryFits(At(t, clock), h)
  }

  /* ----- how the parts carry over ----- */

  /** Facts stay facts when more is recorded. */
  ghost predicate Extends(h: History, h': History) {
    && (forall p :: p in h.sent ==> p in h'.sent && h'.sent[p] == h.sent[p])
    && (forall p :: p in h.got ==> p in h'.got && h'.got[p] == h.got[p])
    && (forall k :: k in h.answered ==> k in h'.answered && h'.answered[k] == h.answered[k])
    && (forall k :: k in h.completed ==> k in h'.completed && h'.completed[k] == h.completed[k])
    && (forall k :: k in h.accepted ==> k in h'.accepted && h.accepted[k] <= h'.accepted[k])
  }

  lemma SentStaysRight(m: Marks, h: History, m': Marks, h': History, p: Packet)
    requires Later(m, m') && Extends(h, h') && p in h.sent && SentRightly(m, h, p)
    ensures SentRightly(m', h', p)
  {
    if p.Data? {
      if p.keys.initiator.node == m.self {
        var q :| ReplyWith(h, q, p.keys) && h.got[q] <= h.sent[p] && q.from == p.to;
        assert ReplyWith(h', q, p.keys);
      } else {
        var q :| GotUnder(h, q, p.keys) && h.got[q] <= h.sent[p] && q.from == p.to;
        assert GotUnder(h', q, p.keys);
      }
    }
  }

  lemma GotStaysRight(m: Marks, h: History, m': Marks, h': History, p: Packet)
    requires Later(m, m') && Extends(h, h') && p in h.got && GotRightly(m, h, p)
    ensures GotRightly(m', h', p)
  {
  }

  /** More history, later. */
  lemma HistoryStaysFit(m: Marks, h: History, m': Marks, h': History)
    requires HistoryFits(m, h) && Extends(h, h') && Later(m, m')
    requires forall p :: p in h'.sent && p !in h.sent ==> SentRightly(m', h', p)
    requires forall p :: p in h'.got && p !in h.got ==> GotRightly(m', h', p)
    requires forall k :: k in h'.accepted && k !in h.accepted ==> KeysDrawn(m', h', k)
    requires forall k :: (k in h'.answered && k !in h.answered) || (k in h'.completed && k !in h.completed) ==> NonceDrawn(m', h', k)
    ensures HistoryFits(m', h')
  {
    forall p ensures SentRightly(m', h', p) {
      if p in h.sent {
        assert SentRightly(m, h, p);
        SentStaysRight(m, h, m', h', p);
      }
    }
    forall p ensures GotRightly(m', h', p) {
      if p in h.got {
        assert GotRightly(m, h, p);
        GotStaysRight(m, h, m', h', p);
      }
    }
    forall k ensures KeysDrawn(m', h', k) { assert KeysDrawn(m, h, k); }
    forall k ensures NonceDrawn(m', h', k) { assert NonceDrawn(m, h, k); }
  }

  /** A session no new record is about. */
  ghost predicate Untouched(h: History, h': History, s: Session) {
    && (s.keys.Some? && s.keys.value in h.accepted ==> s.keys.value in h'.accepted && h'.accepted[s.keys.value] == h.accepted[s.keys.value])
    && (s.keys.Some? ==> forall p :: p in h'.sent && p.Data? && p.keys == s.keys.value ==> p in h.sent)
    && (forall k :: k in h'.accepted && k.initiator == s.nonce ==> k in h.accepted)
    && (s.nonce in h'.completed ==> s.nonce in h.completed)
  }

  lemma SessionStaysFit(m: Marks, h: History, m': Marks, h': History, s: Session)
    requires SessionFits(m, h, s) && Extends(h, h') && Later(m, m') && Untouched(h, h', s)
    ensures SessionFits(m', h', s)
  {
    if s.ready && s.nonce.Started? {
      var q :| ReplyWith(h, q, s.keys.value);
      assert ReplyWith(h', q, s.keys.value);
    }
    if s.ready && s.nonce.Answered? {
      var q :| GotUnder(h, q, s.keys.value);
      assert GotUnder(h', q, s.keys.value);
    }
  }

  /** One session is added or replaced; the others are not concerned. */
  lemma OneSessionFits(m: Marks, h: History, m': Marks, h': History, sessions: map<Id, Session>, id: Id, s: Session)
    requires SessionsFit(m, h, sessions) && Extends(h, h') && Later(m, m') && SessionFits(m', h', s)
    requires forall i :: i in sessions && i != id ==> sessions[i].nonce != s.nonce && Untouched(h, h', sessions[i])
    ensures SessionsFit(m', h', sessions[id := s])
  {
    var more := sessions[id := s];
    forall i | i in more ensures SessionFits(m', h', more[i]) {
      if i != id {
        assert SessionFits(m, h, sessions[i]);
        SessionStaysFit(m, h, m', h', sessions[i]);
      }
    }
    forall i, i' ensures NoncesDiffer(more, i, i') {
      assert NoncesDiffer(sessions, i, i');
    }
  }

  lemma CapacityKept(sessions: map<Id, Session>, id: Id, s: Session)
    requires Capacity(sessions)
    requires if id in sessions then s.peer == sessions[id].peer else HasRoom(sessions, s.peer)
    ensures Capacity(sessions[id := s])
  {
    var more := sessions[id := s];
    forall i | i in more ensures |OfPeer(more, more[i].peer)| <= MAX_PEER_SESSIONS {
      PeerCapacityKept(sessions, id, s, more[i].peer);
      assert more[i].peer != s.peer ==> more[i] == sessions[i];
    }
  }

  lemma PeerCapacityKept(sessions: map<Id, Session>, id: Id, s: Session, peer: Key)
    requires id in sessions ==> s.peer == sessions[id].peer
    ensures |OfPeer(sessions[id := s], peer)| <= |OfPeer(sessions, peer)| + if peer == s.peer && id !in sessions then 1 else 0
  {
    var more := OfPeer(sessions[id := s], peer);
    if peer == s.peer && id !in sessions {
      assert more == OfPeer(sessions, peer) + {id};
    } else {
      assert more == OfPeer(sessions, peer);
    }
  }

  /** Losing sessions, or noting them unused, breaks nothing. */
  lemma FewerSessionsFit(t: Table, clock: Time, h: History, fewer: map<Id, Session>, now: Time)
    requires Fits(t, clock, h) && clock <= now && fewer.Keys <= t.sessions.Keys
    requires forall id :: id in fewer ==> fewer[id] == t.sessions[id].(unused := fewer[id].unused)
    ensures Fits(t.(sessions := fewer), now, h)
  {
    SmallerSet(fewer.Keys, t.sessions.Keys);
    forall id | id in fewer ensures |OfPeer(fewer, fewer[id].peer)| <= MAX_PEER_SESSIONS {
      SmallerSet(OfPeer(fewer, fewer[id].peer), OfPeer(t.sessions, fewer[id].peer));
    }
    HistoryStaysFit(At(t, clock), h, At(t, now), h);
    forall id | id in fewer ensures SessionFits(At(t, now), h, fewer[id]) {
      assert SessionFits(At(t, clock), h, t.sessions[id]);
    }
    forall i, i' ensures NoncesDiffer(fewer, i, i') {
      assert NoncesDiffer(t.sessions, i, i');
    }
  }

  /* ----- the steps of a session ----- */

  /** What a sender's own history makes true of every packet it sends. */
  predicate WellFormed(p: Packet) {
    p.from != p.to && match p
    case Request(from, _, _, nonce) => nonce.Started? && nonce.node == from
    case Reply(from, to, _, keys) => keys.initiator.node == to && keys.responder.node == from
    case Data(from, to, _, keys, _, _) =>
      (keys.initiator.node == from && keys.responder.node == to) || (keys.initiator.node == to && keys.responder.node == from)
  }

  function FreshSession(peer: Key, nonce: Nonce, keys: Option<Keys>, now: Time): Session {
    Session(peer, nonce, keys, 0, 0, 0, now + PENDING, None, false)
  }

  function StartTable(t: Table, peer: Key, id: Id, now: Time): Table {
    t.(serial := t.serial + 1, drawn := t.drawn + 1, sessions := t.sessions[id := FreshSession(peer, Started(t.self, t.drawn + 1), None, now)])
  }

  function StartPacket(t: Table, peer: Key, id: Id): Packet {
    Request(t.self, peer, id, Started(t.self, t.drawn + 1))
  }

  ghost function SentHistory(h: History, p: Packet, now: Time): History {
    h.(sent := h.sent[p := now])
  }

  /** A handshake is started under a new serial. */
  lemma StartFits(t: Table, h: History, peer: Key, id: Id, now: Time)
    requires Fits(t, now, h) && peer != t.self && id !in t.sessions && HasRoom(t.sessions, peer)
    ensures Fits(StartTable(t, peer, id, now), now, SentHistory(h, StartPacket(t, peer, id), now))
  {
    var t', p := StartTable(t, peer, id, now), StartPacket(t, peer, id);
    var m, m', h' := At(t, now), At(StartTable(t, peer, id, now), now), SentHistory(h, p, now);
    assert SentRightly(m, h, p) && NonceDrawn(m, h, p.nonce);
    HistoryStaysFit(m, h, m', h');
    assert SessionFits(m', h', t'.sessions[id]) by {
      assert forall k :: k in h.accepted ==> KeysDrawn(m, h, k);
    }
    forall i | i in t.sessions ensures t.sessions[i].nonce != p.nonce && Untouched(h, h', t.sessions[i]) {
      assert SessionFits(m, h, t.sessions[i]);
    }
    OneSessionFits(m, h, m', h', t.sessions, id, t'.sessions[id]);
    CapacityKept(t.sessions, id, t'.sessions[id]);
  }

  function AnswerKeys(t: Table, p: Packet): Keys
    requires p.Request?
  {
    Keys(p.nonce, Answered(t.self, t.replies + 1))
  }

  function AnswerTable(t: Table, p: Packet, now: Time): Table
    requires p.Request?
  {
    var keys := AnswerKeys(t, p);
    t.(replies := t.replies + 1, sessions := t.sessions[p.id := FreshSession(p.from, keys.responder, Some(keys), now)])
  }

  function AnswerPacket(t: Table, p: Packet): Packet
    requires p.Request?
  {
    Reply(t.self, p.from, p.id, AnswerKeys(t, p))
  }

  /** What answering a request records. */
  ghost function AnswerHistory(t: Table, h: History, p: Packet, now: Time): History
    requires p.Request?
  {
    var keys := AnswerKeys(t, p);
    h.(sent := h.sent[AnswerPacket(t, p) := now], answered := h.answered[keys.responder := now], accepted := h.accepted[keys := {}])
  }

  /** A request is answered with new randomness. */
  lemma AnswerFits(t: Table, h: History, p: Packet, now: Time)
    requires Fits(t, now, h) && p.Request? && WellFormed(p) && p.to == t.self && p.id !in t.sessions && HasRoom(t.sessions, p.from)
    ensures Fits(AnswerTable(t, p, now), now, AnswerHistory(t, h, p, now))
  {
    var t', keys := AnswerTable(t, p, now), AnswerKeys(t, p);
    var m, m', h' := At(t, now), At(t', now), AnswerHistory(t, h, p, now);
    AnswerIsNew(t, h, p, now);
    HistoryStaysFit(m, h, m', h');
    FreshAnswerFits(m', h', p, keys, now);
    forall i | i in t.sessions ensures t.sessions[i].nonce != keys.responder && Untouched(h, h', t.sessions[i]) {
      assert SessionFits(m, h, t.sessions[i]);
    }
    OneSessionFits(m, h, m', h', t.sessions, p.id, t'.sessions[p.id]);
    CapacityKept(t.sessions, p.id, t'.sessions[p.id]);
  }

  lemma FreshAnswerFits(m: Marks, h: History, p: Packet, keys: Keys, now: Time)
    requires p.Request? && p.from != m.self && keys.initiator == p.nonce && p.nonce.node == p.from
    requires keys.responder == Answered(m.self, m.replies) && keys.responder in h.answered && h.answered[keys.responder] == now
    requires keys in h.accepted && h.accepted[keys] == {} && SealedBelow(h, keys, 0)
    ensures SessionFits(m, h, FreshSession(p.from, keys.responder, Some(keys), now))
  {
    EmptyWindowTracks();
  }

  lemma AnswerIsNew(t: Table, h: History, p: Packet, now: Time)
    requires Fits(t, now, h) && p.Request? && WellFormed(p) && p.to == t.self
    ensures Extends(h, AnswerHistory(t, h, p, now))
    ensures AnswerPacket(t, p) !in h.sent && AnswerKeys(t, p) !in h.accepted && AnswerKeys(t, p).responder !in h.answered
    ensures var m', h' := At(AnswerTable(t, p, now), now), AnswerHistory(t, h, p, now); SentRightly(m', h', AnswerPacket(t, p)) && KeysDrawn(m', h', AnswerKeys(t, p)) && NonceDrawn(m', h', AnswerKeys(t, p).responder)
    ensures forall q :: q in h.sent && q.Data? ==> q.keys != AnswerKeys(t, p)
  {
    var m, keys := At(t, now), AnswerKeys(t, p);
    assert SentRightly(m, h, AnswerPacket(t, p)) && NonceDrawn(m, h, keys.responder) && KeysDrawn(m, h, keys);
    forall q | q in h.sent && q.Data? ensures q.keys != keys {
      SealedUnderAccepted(m, h, q);
    }
  }

  /** Data is only ever sealed under keys of a completed handshake. */
  lemma SealedUnderAccepted(m: Marks, h: History, p: Packet)
    requires HistoryFits(m, h) && p in h.sent && p.Data?
    ensures p.keys in h.accepted
  {
    assert SentRightly(m, h, p);
    if p.keys.initiator.node == m.self {
      var q :| ReplyWith(h, q, p.keys);
      assert GotRightly(m, h, q);
    } else {
      var q :| GotUnder(h, q, p.keys);
      assert GotRightly(m, h, q);
    }
  }

  function CompletedSession(s: Session, keys: Keys, now: Time): Session {
    s.(keys := Some(keys), ready := true, expires := now + LIFETIME)
  }

  ghost function CompleteHistory(h: History, p: Packet, now: Time): History
    requires p.Reply?
  {
    h.(got := h.got[p := now], completed := h.completed[p.keys.initiator := now], accepted := h.accepted[p.keys := {}])
  }

  /** A reply to a handshake this node started and has not completed. */
  ghost predicate Awaited(t: Table, p: Packet) {
    && p.Reply? && WellFormed(p) && p.to == t.self && p.id in t.sessions
    && var s := t.sessions[p.id]; s.keys.None? && s.peer == p.from && p.keys.initiator == s.nonce
  }

  /** A reply completes a started handshake. */
  lemma CompleteFits(t: Table, h: History, p: Packet, now: Time)
    requires Fits(t, now, h) && Awaited(t, p)
    ensures Fits(t.(sessions := t.sessions[p.id := CompletedSession(t.sessions[p.id], p.keys, now)]), now, CompleteHistory(h, p, now))
  {
    var s, s' := t.sessions[p.id], CompletedSession(t.sessions[p.id], p.keys, now);
    var m, h' := At(t, now), CompleteHistory(h, p, now);
    CompletionIsNew(t, h, p, now);
    HistoryStaysFit(m, h, m, h');
    assert SessionFits(m, h, s);
    EmptyWindowTracks();
    assert ReplyWith(h', p, p.keys);
    assert SessionFits(m, h', s');
    OthersUntouched(t, h, p, now);
    OneSessionFits(m, h, m, h', t.sessions, p.id, s');
    CapacityKept(t.sessions, p.id, s');
  }

  lemma OthersUntouched(t: Table, h: History, p: Packet, now: Time)
    requires Fits(t, now, h) && Awaited(t, p)
    ensures forall i :: i in t.sessions && i != p.id ==>
      t.sessions[i].nonce != t.sessions[p.id].nonce && Untouched(h, CompleteHistory(h, p, now), t.sessions[i])
  {
    var m, h' := At(t, now), CompleteHistory(h, p, now);
    assert SessionFits(m, h, t.sessions[p.id]);
    forall i | i in t.sessions && i != p.id ensures t.sessions[i].nonce != t.sessions[p.id].nonce && Untouched(h, h', t.sessions[i]) {
      assert SessionFits(m, h, t.sessions[i]) && NoncesDiffer(t.sessions, i, p.id);
    }
  }

  lemma CompletionIsNew(t: Table, h: History, p: Packet, now: Time)
    requires Fits(t, now, h) && Awaited(t, p)
    ensures var h' := CompleteHistory(h, p, now);
      && Extends(h, h') && p !in h.got && p.keys !in h.accepted && GotRightly(At(t, now), h', p)
      && KeysDrawn(At(t, now), h', p.keys) && NonceDrawn(At(t, now), h', p.keys.initiator)
      && forall q :: q in h.sent && q.Data? ==> q.keys != p.keys
  {
    var m := At(t, now);
    assert SessionFits(m, h, t.sessions[p.id]);
    assert GotRightly(m, h, p) && NonceDrawn(m, h, p.keys.initiator);
    forall q | q in h.sent && q.Data? ensures q.keys != p.keys {
      SealedUnderAccepted(m, h, q);
    }
  }

  function Accepted(s: Session, top: nat, bits: nat, now: Time): Session {
    s.(highest := top, window := bits, ready := true, expires := if s.ready then s.expires else now + LIFETIME)
  }

  ghost function AcceptHistory(h: History, p: Packet, now: Time): History
    requires p.Data? && p.keys in h.accepted
  {
    h.(got := h.got[p := now], accepted := h.accepted[p.keys := h.accepted[p.keys] + {p.counter}])
  }

  /** Authentic data with a counter not seen before, for a live session. */
  ghost predicate Acceptable(t: Table, h: History, p: Packet, now: Time) {
    && p.Data? && WellFormed(p) && p.to == t.self && p.id in t.sessions && p.keys in h.accepted
    && var s := t.sessions[p.id];
       s.keys == Some(p.keys) && s.peer == p.from && Live(s, now) && Unseen(s.highest, s.window, p.counter)
  }

  /** Such data is accepted, for the first time. */
  lemma AcceptFits(t: Table, h: History, p: Packet, top: nat, bits: nat, now: Time)
    requires Fits(t, now, h) && Acceptable(t, h, p, now)
    requires Tracks(top, bits, h.accepted[p.keys] + {p.counter})
    ensures p !in h.got
    ensures Fits(t.(sessions := t.sessions[p.id := Accepted(t.sessions[p.id], top, bits, now)]), now, AcceptHistory(h, p, now))
  {
    var s, s' := t.sessions[p.id], Accepted(t.sessions[p.id], top, bits, now);
    var m, h' := At(t, now), AcceptHistory(h, p, now);
    AcceptIsNew(t, h, p, now);
    HistoryStaysFit(m, h, m, h');
    SessionAccepts(m, h, s, p, top, bits, now);
    forall i | i in t.sessions && i != p.id ensures t.sessions[i].nonce != s.nonce && Untouched(h, h', t.sessions[i]) {
      assert SessionFits(m, h, s) && SessionFits(m, h, t.sessions[i]) && NoncesDiffer(t.sessions, i, p.id);
    }
    OneSessionFits(m, h, m, h', t.sessions, p.id, s');
    CapacityKept(t.sessions, p.id, s');
  }

  lemma AcceptIsNew(t: Table, h: History, p: Packet, now: Time)
    requires Fits(t, now, h) && Acceptable(t, h, p, now)
    ensures p !in h.got && Extends(h, AcceptHistory(h, p, now)) && GotRightly(At(t, now), AcceptHistory(h, p, now), p)
    ensures SessionFits(At(t, now), h, t.sessions[p.id])
  {
    var s := t.sessions[p.id];
    assert SessionFits(At(t, now), h, s);
    UnseenIsNew(s.highest, s.window, h.accepted[p.keys], p.counter);
    assert GotRightly(At(t, now), h, p);
  }

  lemma SessionAccepts(m: Marks, h: History, s: Session, p: Packet, top: nat, bits: nat, now: Time)
    requires SessionFits(m, h, s) && p.Data? && s.keys == Some(p.keys) && Live(s, now)
    requires Tracks(top, bits, h.accepted[p.keys] + {p.counter})
    ensures SessionFits(m, AcceptHistory(h, p, now), Accepted(s, top, bits, now))
  {
    var h' := AcceptHistory(h, p, now);
    assert GotUnder(h', p, p.keys);
    if s.nonce.Started? {
      var q :| ReplyWith(h, q, p.keys);
      assert ReplyWith(h', q, p.keys);
    }
  }

  predicate CanSeal(t: Table, id: Id, body: Body) {
    id in t.sessions && t.sessions[id].ready && t.sessions[id].keys.Some? && 0 < |body| <= MAX_BODY && t.sessions[id].next <= MAX_NONCE
  }

  function SealPacket(t: Table, id: Id, body: Body): Packet
    requires CanSeal(t, id, body)
  {
    var s := t.sessions[id];
    Data(t.self, s.peer, id, s.keys.value, s.next, body)
  }

  function SealTable(t: Table, id: Id): Table
    requires id in t.sessions
  {
    t.(sessions := t.sessions[id := t.sessions[id].(next := t.sessions[id].next + 1)])
  }

  /** A ready session seals under its next counter, never used before. */
  lemma SealFits(t: Table, h: History, id: Id, body: Body, now: Time)
    requires Fits(t, now, h) && CanSeal(t, id, body)
    ensures SealPacket(t, id, body) !in h.sent && Fits(SealTable(t, id), now, SentHistory(h, SealPacket(t, id, body), now))
  {
    var s, s', p := t.sessions[id], SealTable(t, id).sessions[id], SealPacket(t, id, body);
    var m, h' := At(t, now), SentHistory(h, p, now);
    SealIsRight(m, h, s, p, now);
    HistoryStaysFit(m, h, m, h');
    SessionSeals(m, h, s, p, now);
    forall i | i in t.sessions && i != id ensures t.sessions[i].nonce != s.nonce && Untouched(h, h', t.sessions[i]) {
      assert SessionFits(m, h, s) && SessionFits(m, h, t.sessions[i]) && NoncesDiffer(t.sessions, i, id);
    }
    OneSessionFits(m, h, m, h', t.sessions, id, s');
    CapacityKept(t.sessions, id, s');
  }

  lemma SessionSeals(m: Marks, h: History, s: Session, p: Packet, now: Time)
    requires SessionFits(m, h, s) && s.ready && s.next <= MAX_NONCE && p.Data? && s.keys == Some(p.keys) && p.counter == s.next
    ensures SessionFits(m, SentHistory(h, p, now), s.(next := s.next + 1))
  {
    var h' := SentHistory(h, p, now);
    if s.nonce.Started? {
      var q :| ReplyWith(h, q, p.keys);
      assert ReplyWith(h', q, p.keys);
    } else {
      var q :| GotUnder(h, q, p.keys);
      assert GotUnder(h', q, p.keys);
    }
  }

  lemma SealIsRight(m: Marks, h: History, s: Session, p: Packet, now: Time)
    requires HistoryFits(m, h) && m.clock == now && SessionFits(m, h, s) && s.ready
    requires p.Data? && p.from == m.self && p.to == s.peer && s.keys == Some(p.keys) && p.counter == s.next
    ensures p !in h.sent && Extends(h, SentHistory(h, p, now)) && SentRightly(m, SentHistory(h, p, now), p)
  {
    var h' := SentHistory(h, p, now);
    if s.nonce.Started? {
      var q :| ReplyWith(h, q, p.keys);
      assert GotRightly(m, h, q) && NonceDrawn(m, h, s.nonce);
      assert ReplyWith(h', q, p.keys);
    } else {
      var q :| GotUnder(h, q, p.keys);
      assert GotRightly(m, h, q);
      assert GotUnder(h', q, p.keys);
    }
  }

  /* ----- whole operations ----- */

  datatype Event = Rejected | Answer(reply: Packet) | Confirmed | Delivered(body: Body)

  const MAX_SERIAL: nat := 0xFFFF_FFFF_FFFF_FFFF

  function Expired(t: Table, now: Time): Table {
    t.(sessions := Unexpired(t.sessions, now))
  }

  /** `next` is the ID of the next serial. */
  function StartStep(t: Table, peers: set<Key>, next: Id, peer: Key, now: Time): (Table, Option<Packet>) {
    var live := Expired(t, now);
    if peer !in peers || !HasRoom(live.sessions, peer) || t.serial >= MAX_SERIAL then (live, None)
    else if next == ZERO_ID || next in live.sessions then (live.(serial := t.serial + 1), None)
    else (StartTable(live, peer, next, now), Some(StartPacket(live, peer, next)))
  }

  function SealStep(t: Table, id: Id, body: Body, now: Time): (Table, Option<Packet>) {
    var live := Expired(t, now);
    if CanSeal(live, id, body) then (SealTable(live, id), Some(SealPacket(live, id, body))) else (live, None)
  }

  /** The header checks of a received packet. */
  predicate HeaderFits(self: Key, p: Packet) {
    p.to == self && p.from != self && p.id != ZERO_ID && (p.Data? ==> p.counter <= MAX_NONCE && |p.body| > 0)
  }

  function RequestStep(t: Table, p: Packet, genuine: bool, now: Time): (Table, Event)
    requires p.Request?
  {
    if p.id in t.sessions || !HasRoom(t.sessions, p.from) || !genuine then (t, Rejected)
    else (AnswerTable(t, p, now), Answer(AnswerPacket(t, p)))
  }

  function ReplyStep(t: Table, p: Packet, genuine: bool, now: Time): (Table, Event)
    requires p.Reply?
  {
    if p.id !in t.sessions || t.sessions[p.id].peer != p.from then (t, Rejected) else
    var s := t.sessions[p.id];
    if s.keys.Some? || !genuine || p.keys.initiator != s.nonce then (t, Rejected)
    else (t.(sessions := t.sessions[p.id := CompletedSession(s, p.keys, now)]), Confirmed)
  }

  function DataStep(t: Table, p: Packet, genuine: bool, now: Time): (Table, Event)
    requires p.Data?
  {
    if p.id !in t.sessions || t.sessions[p.id].peer != p.from then (t, Rejected) else
    var s := t.sessions[p.id];
    if s.keys.None? || !Unseen(s.highest, s.window, p.counter) || !genuine || s.keys.value != p.keys then (t, Rejected)
    else
      var (top, bits) := Marked(s.highest, s.window, p.counter);
      (t.(sessions := t.sessions[p.id := Accepted(s, top, bits, now)]), Delivered(p.body))
  }

  /** `genuine`: the packet passes authentication under the keys it names.
      `admitted`: the limiters let it through. */
  function ReceiveStep(t: Table, peers: set<Key>, p: Packet, genuine: bool, admitted: bool, now: Time): (Table, Event) {
    var live := Expired(t, now);
    if !HeaderFits(t.self, p) || !admitted || p.from !in peers then (live, Rejected)
    else match p
      case Request(_, _, _, _) => RequestStep(live, p, genuine, now)
      case Reply(_, _, _, _) => ReplyStep(live, p, genuine, now)
      case Data(_, _, _, _, _, _) => DataStep(live, p, genuine, now)
  }

  /** A ready session that nothing has referred to for ten seconds is retired. */
  predicate Retires(s: Session, used: bool, now: Time) {
    s.ready && !used && s.unused.Some? && s.unused.value + PENDING <= now
  }

  /** A ready session notes since when nothing refers to it. */
  function Noticed(s: Session, used: bool, now: Time): Session {
    if !s.ready then s else if used then s.(unused := None) else if s.unused.None? then s.(unused := Some(now)) else s
  }

  function Pruned(sessions: map<Id, Session>, used: set<Id>, now: Time): map<Id, Session> {
    map id | id in sessions && !Retires(sessions[id], id in used, now) :: Noticed(sessions[id], id in used, now)
  }

  /* ----- what they record ----- */

  ghost function RecordSent(h: History, r: Option<Packet>, now: Time): History {
    if r.Some? then h.(sent := h.sent[r.value := now]) else h
  }

  ghost function RecordReceived(t: Table, h: History, p: Packet, e: Event, now: Time): History {
    if e.Answer? && p.Request? then AnswerHistory(t, h, p, now)
    else if e.Confirmed? && p.Reply? then CompleteHistory(h, p, now)
    else if e.Delivered? && p.Data? && p.keys in h.accepted then AcceptHistory(h, p, now)
    else h
  }

  lemma ExpiredFits(t: Table, clock: Time, h: History, now: Time)
    requires Fits(t, clock, h) && clock <= now
    ensures Fits(Expired(t, now), now, h)
  {
    FewerSessionsFit(t, clock, h, Unexpired(t.sessions, now), now);
  }

  /** No live session is lost, or replaced by another under its ID. */
  ghost predicate Preserves(t: Table, t': Table, now: Time) {
    forall id :: id in t.sessions && Live(t.sessions[id], now) ==>
      id in t'.sessions && t'.sessions[id].nonce == t.sessions[id].nonce && t'.sessions[id].peer == t.sessions[id].peer
  }

  lemma StartPreserves(t: Table, peers: set<Key>, next: Id, peer: Key, now: Time)
    ensures Preserves(t, StartStep(t, peers, next, peer, now).0, now)
  {
  }

  lemma SealPreserves(t: Table, id: Id, body: Body, now: Time)
    ensures Preserves(t, SealStep(t, id, body, now).0, now)
  {
  }

  lemma ReceivePreserves(t: Table, peers: set<Key>, p: Packet, genuine: bool, admitted: bool, now: Time)
    ensures Preserves(t, ReceiveStep(t, peers, p, genuine, admitted, now).0, now)
  {
    var live := Expired(t, now);
    match p
    case Request(_, _, _, _) => assert Preserves(live, RequestStep(live, p, genuine, now).0, now);
    case Reply(_, _, _, _) => assert Preserves(live, ReplyStep(live, p, genuine, now).0, now);
    case Data(_, _, _, _, _, _) => assert Preserves(live, DataStep(live, p, genuine, now).0, now);
  }

  lemma StartStepFits(t: Table, clock: Time, h: History, peers: set<Key>, next: Id, peer: Key, now: Time)
    requires Fits(t, clock, h) && clock <= now && t.self !in peers
    ensures var (t', r) := StartStep(t, peers, next, peer, now); Fits(t', now, RecordSent(h, r, now)) && (r.Some? ==> r.value.Request? && r.value !in h.sent)
  {
    ExpiredFits(t, clock, h, now);
    var live := Expired(t, now);
    if peer in peers && HasRoom(live.sessions, peer) {
      if next in live.sessions || next == ZERO_ID {
        SerialBurns(live, h, now);
      } else {
        assert SentRightly(At(live, now), h, StartPacket(live, peer, next));
        StartFits(live, h, peer, next, now);
      }
    }
  }

  lemma SerialBurns(t: Table, h: History, now: Time)
    requires Fits(t, now, h)
    ensures Fits(t.(serial := t.serial + 1), now, h)
  {
    var m, m' := At(t, now), At(t.(serial := t.serial + 1), now);
    HistoryStaysFit(m, h, m', h);
    forall id | id in t.sessions ensures SessionFits(m', h, t.sessions[id]) {
      assert SessionFits(m, h, t.sessions[id]);
    }
  }

  /** What is sealed is sealed once, under a counter above all before it. */
  lemma SealStepFits(t: Table, clock: Time, h: History, id: Id, body: Body, now: Time)
    requires Fits(t, clock, h) && clock <= now
    ensures var (t', r) := SealStep(t, id, body, now); Fits(t', now, RecordSent(h, r, now)) && (r.Some? ==> r.value !in h.sent && r.value.Data? && SealedBelow(h, r.value.keys, r.value.counter))
  {
    ExpiredFits(t, clock, h, now);
    var live := Expired(t, now);
    if CanSeal(live, id, body) {
      assert SessionFits(At(live, now), h, live.sessions[id]);
      SealFits(live, h, id, body, now);
    }
  }

  /** Receiving `p` can add `p` to what was accepted, and a reply to what was sent. */
  ghost predicate OnlyAdds(h: History, h': History, p: Packet, genuine: bool, now: Time) {
    && (forall q :: q in h.sent ==> q in h'.sent && h'.sent[q] == h.sent[q])
    && (forall q :: q in h'.sent && q.Data? ==> q in h.sent)
    && (forall q :: q in h.got ==> q in h'.got && h'.got[q] == h.got[q])
    && (forall q :: q in h'.got && q !in h.got ==> q == p && genuine && h'.got[q] == now)
  }

  /** What is accepted is accepted once. */
  lemma ReceiveStepFits(t: Table, clock: Time, h: History, peers: set<Key>, p: Packet, genuine: bool, admitted: bool, now: Time)
    requires Fits(t, clock, h) && clock <= now && (genuine ==> WellFormed(p))
    ensures var (t', e) := ReceiveStep(t, peers, p, genuine, admitted, now); var h' := RecordReceived(Expired(t, now), h, p, e, now);
      Fits(t', now, h') && (e.Delivered? ==> p.Data? && p !in h.got && p in h'.got) && OnlyAdds(h, h', p, genuine, now)
  {
    ExpiredFits(t, clock, h, now);
    var live := Expired(t, now);
    var e := ReceiveStep(t, peers, p, genuine, admitted, now).1;
    if e != Rejected {
      match p
      case Request(_, _, _, _) => AnswerIsNew(live, h, p, now); AnswerFits(live, h, p, now);
      case Reply(_, _, _, _) => CompletionIsNew(live, h, p, now); CompleteFits(live, h, p, now);
      case Data(_, _, _, _, _, _) => DataStepFits(live, h, p, now);
    }
  }

  /** On a live session of its sender and keys, authentic data is delivered exactly if
      its counter was not accepted before and is less than 64 behind the highest. */
  lemma DeliveredExactly(t: Table, clock: Time, h: History, peers: set<Key>, p: Packet, now: Time)
    requires Fits(t, clock, h) && clock <= now && p.Data? && HeaderFits(t.self, p) && p.from in peers
    requires p.id in t.sessions && Live(t.sessions[p.id], now) && t.sessions[p.id].peer == p.from && t.sessions[p.id].keys == Some(p.keys)
    ensures p.keys in h.accepted
    ensures ReceiveStep(t, peers, p, true, true, now).1.Delivered? <==> p.counter !in h.accepted[p.keys] && t.sessions[p.id].highest < p.counter + 64
  {
    var s := t.sessions[p.id];
    assert SessionFits(At(t, clock), h, s);
    UnseenIsNew(s.highest, s.window, h.accepted[p.keys], p.counter);
  }

  lemma DataStepFits(t: Table, h: History, p: Packet, now: Time)
    requires Fits(t, now, h) && p.Data? && WellFormed(p) && p.to == t.self && DataStep(t, p, true, now).1.Delivered?
    requires Live(t.sessions[p.id], now)
    ensures p.keys in h.accepted && p !in h.got && Fits(DataStep(t, p, true, now).0, now, AcceptHistory(h, p, now))
  {
    var s := t.sessions[p.id];
    assert SessionFits(At(t, now), h, s);
    MarkedTracks(s.highest, s.window, h.accepted[p.keys], p.counter);
    var (top, bits) := Marked(s.highest, s.window, p.counter);
    AcceptFits(t, h, p, top, bits, now);
  }
}
