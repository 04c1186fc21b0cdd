/** The session table of secure.go in place: each operation is one step of the
    table value, under two fixed-window limiters. */
module Secure {
  import opened Common
  import opened Rate
  import opened Replay
  import opened Sessions
  import opened Bits

  class Secure {
    const self: Key
    const ids: nat -> Id                  // A block cipher under a random key.
    const global: SecureRate
    const limits: map<Key, SecureRate>    // One for each approved peer.
    var sessions: map<Id, Session>
    var serial: nat
    var drawn: nat                        // Numbers the randomness of handshakes.
    var replies: nat

    function Value(): Table
      reads this
    {
      Table(self, drawn, sessions, serial, replies)
    }

    ghost predicate RatesFit(now: Time)
      reads global, limits.Values
    {
      && global.Valid() && global.clock <= now && global.limit == 64
      && (forall k :: k in limits ==> limits[k] != global && limits[k].Valid() && limits[k].clock <= now && limits[k].limit == 8)
    }

    constructor (self: Key, drawn: nat, answered: nat, ids: nat -> Id, peers: set<Key>)
      ensures Value() == Table(self, drawn, map[], 0, answered) && this.ids == ids && limits.Keys == peers && RatesFit(0)
      ensures fresh(global) && fresh(limits.Values)
    {
      this.self, this.drawn, this.ids := self, drawn, ids;
      sessions, serial, replies := map[], 0, answered;
      var g := new SecureRate(64);
      var rates: map<Key, SecureRate> := map[];
      var todo := peers;
      while todo != {}
        invariant todo <= peers && rates.Keys == peers - todo
        invariant g.Valid() && fresh(g) && g.clock <= 0 && g.limit == 64
        invariant forall k :: k in rates ==> fresh(rates[k]) && rates[k] != g && rates[k].Valid() && rates[k].clock <= 0 && rates[k].limit == 8
        decreases todo
      {
        var k :| k in todo;
        var rate := new SecureRate(8);
        rates := rates[k := rate];
        todo := todo - {k};
      }
      global, limits := g, rates;
    }

    /** The open window of a limiter has no room. */
    ghost predicate Full(rate: SecureRate, now: Time)
      reads rate
    {
      now < rate.until && rate.used == rate.limit
    }

    method Expire(now: Time)
      modifies this`sessions
      ensures Value() == Expired(old(Value()), now)
    {
      var todo := sessions.Keys;
      while todo != {}
        invariant todo <= old(sessions).Keys
        invariant sessions == map id | id in old(sessions) && (id in todo || Live(old(sessions)[id], now)) :: old(sessions)[id]
        decreases todo
      {
        var id :| id in todo;
        if !Live(sessions[id], now) { sessions := sessions - {id}; }
        todo := todo - {id};
      }
    }

    method Room(peer: Key) returns (ok: bool)
      ensures ok <==> HasRoom(sessions, peer)
    {
      var count, todo := 0, sessions.Keys;
      ghost var mine: set<Id> := {};
      while todo != {}
        invariant todo <= sessions.Keys && count == |mine|
        invariant mine == set id | id in sessions && id !in todo && sessions[id].peer == peer
        decreases todo
      {
        var id :| id in todo;
        todo := todo - {id};
        if sessions[id].peer == peer {
          count, mine := count + 1, mine + {id};
        }
      }
      assert mine == OfPeer(sessions, peer);
      ok := |sessions| < MAX_SESSIONS && count < MAX_PEER_SESSIONS;
    }

    /** Start a handshake. The serial is used up even on failure. */
    method Start(peer: Key, now: Time) returns (r: Option<Packet>)
      modifies this
      ensures (Value(), r) == StartStep(old(Value()), limits.Keys, ids(old(serial) + 1), peer, now)
      ensures r.Some? ==> r.value.Request? && r.value.from == self && r.value.to == peer && r.value.id == ids(old(serial) + 1) && serial == old(serial) + 1
      ensures r.Some? ==> peer in limits && r.value.id != ZERO_ID && r.value.id in sessions && sessions[r.value.id].expires == now + 10 * SECOND
      ensures serial <= old(serial) + 1 && (old(serial) >= 0xFFFF_FFFF_FFFF_FFFF ==> r.None? && serial == old(serial))
    {
      Expire(now);
      var room := Room(peer);
      if peer !in limits || !room || serial >= MAX_SERIAL { return None; }
      var id := ids(serial + 1);
      if id == ZERO_ID || id in sessions {
        serial := serial + 1;
        return None;
      }
      var p := Enter(peer, id, now);
      r := Some(p);
    }

    method Enter(peer: Key, id: Id, now: Time) returns (p: Packet)
      requires id !in sessions
      modifies this`serial, this`drawn, this`sessions
      ensures p == StartPacket(old(Value()), peer, id) && Value() == StartTable(old(Value()), peer, id, now)
    {
      p := StartPacket(Value(), peer, id);
      serial, drawn := serial + 1, drawn + 1;
      sessions := sessions[id := FreshSession(peer, Started(self, drawn), None, now)];
    }

    /** Seal a body under the session's next counter. */
    method Seal(id: Id, body: Body, now: Time) returns (r: Option<Packet>)
      modifies this`sessions
      ensures (Value(), r) == SealStep(old(Value()), id, body, now)
      ensures r.Some? <==>
                id in old(sessions) && now < old(sessions)[id].expires && old(sessions)[id].ready && old(sessions)[id].keys.Some?
                && 0 < |body| <= 364 && old(sessions)[id].next <= 0xFFFF_FFFF_FFFF_FFFE
      ensures r.Some? ==>
                var s := old(sessions)[id];
                r.value == Data(self, s.peer, id, s.keys.value, s.next, body) && id in sessions && sessions[id] == s.(next := s.next + 1)
    {
      Expire(now);
      if id !in sessions { return None; }
      var s := sessions[id];
      if !s.ready || s.keys.None? || |body| == 0 || |body| > MAX_BODY || s.next > MAX_NONCE { return None; }
      r := Some(Data(self, s.peer, id, s.keys.value, s.next, body));
      sessions := sessions[id := s.(next := s.next + 1)];
    }

    /** What each kind of packet can lead to; data is numbered below the reserved nonce. */
    predicate Fitting(e: Event, p: Packet) {
      match p
      case Request(from, _, id, _) => e.Answer? && e.reply.Reply? && e.reply.from == self && e.reply.to == from && e.reply.id == id
      case Reply(_, _, _, _) => e.Confirmed?
      case Data(_, _, _, _, counter, body) => e == Delivered(body) && body != [] && counter <= 0xFFFF_FFFF_FFFF_FFFE
    }

    /** The receive path. */
    method Receive(p: Packet, genuine: bool, now: Time) returns (e: Event, ghost admitted: bool)
      requires RatesFit(now)
      modifies this, global, limits.Values
      ensures (Value(), e) == ReceiveStep(old(Value()), limits.Keys, p, genuine, admitted, now)
      ensures !admitted ==> !p.Data? && (Full(global, now) || (p.from in limits && Full(limits[p.from], now)))
      ensures e != Rejected ==> genuine && p.to == self && p.from != self && p.from in limits && p.id != ZERO_ID && Fitting(e, p)
      ensures RatesFit(now)
    {
      admitted := true;
      Expire(now);
      if !HeaderFits(self, p) { return Rejected, admitted; }
      // Unknown keys use up only the global budget.
      if !p.Data? {
        var ok := global.Allow(now);
        admitted := ok;
        if !ok { return Rejected, admitted; }
      }
      if p.from !in limits { return Rejected, admitted; }
      if !p.Data? {
        var ok := limits[p.from].Allow(now);
        admitted := ok;
        if !ok { return Rejected, admitted; }
      }
      match p
      case Request(_, _, _, _) => e := ReceiveRequest(p, genuine, now);
      case Reply(_, _, _, _) => e := ReceiveReply(p, genuine, now);
      case Data(_, _, _, _, _, _) => e := ReceiveData(p, genuine, now);
    }

    method ReceiveRequest(p: Packet, genuine: bool, now: Time) returns (e: Event)
      requires p.Request?
      modifies this`sessions, this`replies
      ensures (Value(), e) == RequestStep(old(Value()), p, genuine, now)
    {
      var room := Room(p.from);
      if p.id in sessions || !room || !genuine { return Rejected; }
      e := Answer(AnswerPacket(Value(), p));
      var keys := AnswerKeys(Value(), p);
      replies := replies + 1;
      sessions := sessions[p.id := FreshSession(p.from, keys.responder, Some(keys), now)];
    }

    method ReceiveReply(p: Packet, genuine: bool, now: Time) returns (e: Event)
      requires p.Reply?
      modifies this`sessions
      ensures (Value(), e) == ReplyStep(old(Value()), p, genuine, now)
    {
      if p.id !in sessions || sessions[p.id].peer != p.from { return Rejected; }
      var s := sessions[p.id];
      if s.keys.Some? || !genuine || p.keys.initiator != s.nonce { return Rejected; }
      sessions := sessions[p.id := s.(keys := Some(p.keys), ready := true, expires := now + LIFETIME)];
      e := Confirmed;
    }

    /** The replay window is only advanced after authentication. */
    method ReceiveData(p: Packet, genuine: bool, now: Time) returns (e: Event)
      requires p.Data?
      modifies this`sessions
      ensures (Value(), e) == DataStep(old(Value()), p, genuine, now)
    {
      if p.id !in sessions || sessions[p.id].peer != p.from { return Rejected; }
      var s := sessions[p.id];
      if s.keys.None? || !Unseen(s.highest, s.window, p.counter) { return Rejected; }
      if !genuine || s.keys.value != p.keys { return Rejected; }
      var highest, window := s.highest, s.window;
      if p.counter > highest {
        window := ShiftLeft(window, p.counter - highest);
        highest := p.counter;
      }
      window := SetBit(window, highest - p.counter);
      s := s.(highest := highest, window := window);
      if !s.ready { s := s.(ready := true, expires := now + LIFETIME); }
      sessions := sessions[p.id := s];
      e := Delivered(p.body);
    }

    method Prune(used: set<Id>, now: Time)
      modifies this`sessions
      ensures sessions == Pruned(Unexpired(old(sessions), now), used, now)
      ensures forall id :: id in sessions ==> id in old(sessions) && now < sessions[id].expires && sessions[id] == old(sessions)[id].(unused := sessions[id].unused)
      ensures forall id :: id in old(sessions) && now < old(sessions)[id].expires && id in used ==> id in sessions && (sessions[id].ready ==> sessions[id].unused.None?)
      ensures forall id :: id in old(sessions) && now < old(sessions)[id].expires && !old(sessions)[id].ready ==> id in sessions && sessions[id] == old(sessions)[id]
      ensures forall id :: id in old(sessions) && now < old(sessions)[id].expires && old(sessions)[id].ready && id !in used ==>
                var since := if old(sessions)[id].unused.None? then now else old(sessions)[id].unused.value;
                (id in sessions <==> now < since + 10 * SECOND) && (id in sessions ==> sessions[id].unused == Some(since))
    {
      Expire(now);
      var todo := sessions.Keys;
      ghost var before := sessions;
      while todo != {}
        invariant todo <= before.Keys
        invariant sessions == map id | id in before && (id in todo || !Retires(before[id], id in used, now)) ::
                                if id in todo then before[id] else Noticed(before[id], id in used, now)
        decreases todo
      {
        var id :| id in todo;
        todo := todo - {id};
        var s := sessions[id];
        if s.ready {
          if id in used {
            sessions := sessions[id := s.(unused := None)];
          } else if s.unused.None? {
            sessions := sessions[id := s.(unused := Some(now))];
          } else if !(now < s.unused.value + PENDING) {
            sessions := sessions - {id};
          }
        }
      }
    }
  }
}
