/** How long sessions live and which IDs they get: for every operation on the session
    table of secure.go. */
module Lives {
  import opened Common
  import opened Sessions

  /** Created at `born`, a session ends within 10 seconds, or less than 10 minutes and
      10 seconds after its creation once it is confirmed. */
  predicate OneLife(s: Session, born: Time) {
    if s.ready then s.keys.Some? && s.expires < born + PENDING + LIFETIME else s.expires <= born + PENDING
  }

  ghost predicate LifeAt(sessions: map<Id, Session>, clock: Time, born: map<Id, Time>, id: Id) {
    id in sessions ==> id in born && born[id] <= clock && OneLife(sessions[id], born[id])
  }

  ghost predicate LivesFit(sessions: map<Id, Session>, clock: Time, born: map<Id, Time>) {
    forall id {:trigger LifeAt(sessions, clock, born, id)} :: LifeAt(sessions, clock, born, id)
  }

  /** A session is created when new randomness appears under its ID. */
  function Births(t: Table, t': Table, born: map<Id, Time>, now: Time): map<Id, Time> {
    map id | id in t'.sessions ::
      if id in t.sessions && id in born && t.sessions[id].nonce == t'.sessions[id].nonce then born[id] else now
  }

  lemma StartLives(t: Table, clock: Time, h: History, born: map<Id, Time>, peers: set<Key>, next: Id, peer: Key, now: Time)
    requires Fits(t, clock, h) && LivesFit(t.sessions, clock, born) && clock <= now
    ensures var t' := StartStep(t, peers, next, peer, now).0; LivesFit(t'.sessions, now, Births(t, t', born, now))
  {
    var t' := StartStep(t, peers, next, peer, now).0;
    forall id ensures LifeAt(t'.sessions, now, Births(t, t', born, now), id) {
      assert LifeAt(t.sessions, clock, born, id);
      assert id in t.sessions ==> SessionFits(At(t, clock), h, t.sessions[id]);
    }
  }

  lemma SealLives(t: Table, clock: Time, born: map<Id, Time>, id: Id, body: Body, now: Time)
    requires LivesFit(t.sessions, clock, born) && clock <= now
    ensures var t' := SealStep(t, id, body, now).0; LivesFit(t'.sessions, now, Births(t, t', born, now))
  {
    var t' := SealStep(t, id, body, now).0;
    forall i ensures LifeAt(t'.sessions, now, Births(t, t', born, now), i) {
      assert LifeAt(t.sessions, clock, born, i);
    }
  }

  lemma ReceiveLives(t: Table, clock: Time, h: History, born: map<Id, Time>, peers: set<Key>, p: Packet, genuine: bool, admitted: bool, now: Time)
    requires Fits(t, clock, h) && LivesFit(t.sessions, clock, born) && clock <= now
    ensures var t' := ReceiveStep(t, peers, p, genuine, admitted, now).0; LivesFit(t'.sessions, now, Births(t, t', born, now))
  {
    var t' := ReceiveStep(t, peers, p, genuine, admitted, now).0;
    forall id ensures LifeAt(t'.sessions, now, Births(t, t', born, now), id) {
      assert LifeAt(t.sessions, clock, born, id);
      assert id in t.sessions ==> SessionFits(At(t, clock), h, t.sessions[id]);
      if id in t'.sessions { ReceivedSession(t, peers, p, genuine, admitted, now, id); }
    }
  }

  /** A session after a packet: as before, confirmed just now, or newly created. */
  lemma ReceivedSession(t: Table, peers: set<Key>, p: Packet, genuine: bool, admitted: bool, now: Time, id: Id)
    requires var t' := ReceiveStep(t, peers, p, genuine, admitted, now).0; id in t'.sessions
    ensures var s := ReceiveStep(t, peers, p, genuine, admitted, now).0.sessions[id];
      || (s.nonce == Answered(t.self, t.replies + 1) && !s.ready && s.expires == now + PENDING)
      || (&& id in t.sessions && Live(t.sessions[id], now) && s.nonce == t.sessions[id].nonce
          && ((s.ready == t.sessions[id].ready && s.expires == t.sessions[id].expires && (t.sessions[id].keys.Some? ==> s.keys.Some?))
              || ((!t.sessions[id].ready || t.sessions[id].keys.None?) && s.ready && s.keys.Some? && s.expires == now + LIFETIME)))
  {
  }

  lemma PruneLives(t: Table, clock: Time, born: map<Id, Time>, kept: map<Id, Session>, now: Time)
    requires LivesFit(t.sessions, clock, born) && clock <= now && kept.Keys <= t.sessions.Keys
    requires forall id :: id in kept ==> kept[id] == t.sessions[id].(unused := kept[id].unused)
    ensures LivesFit(kept, now, Births(t, t.(sessions := kept), born, now))
  {
    forall i ensures LifeAt(kept, now, Births(t, t.(sessions := kept), born, now), i) {
      assert LifeAt(t.sessions, clock, born, i);
    }
  }

  /* ----- the IDs of sessions started here ----- */

  ghost predicate Injective(ids: nat -> Id) {
    forall m, n :: ids(m) == ids(n) ==> m == n
  }

  ghost predicate Increasing(serials: seq<nat>, last: nat) {
    && (forall i, j :: 0 <= i < j < |serials| ==> serials[i] < serials[j])
    && (forall i :: 0 <= i < |serials| ==> serials[i] <= last)
  }

  lemma SerialsIncrease(t: Table, peers: set<Key>, next: Id, peer: Key, now: Time, serials: seq<nat>)
    requires Increasing(serials, t.serial)
    ensures var (t', r) := StartStep(t, peers, next, peer, now);
      Increasing(if r.Some? then serials + [t.serial + 1] else serials, t'.serial)
  {
  }

  /** Started under different serials, no two sessions share an ID, however long ago
      the earlier one ended. */
  lemma IdsDiffer(ids: nat -> Id, serials: seq<nat>, last: nat, i: nat, j: nat)
    requires Injective(ids) && Increasing(serials, last) && i < j < |serials|
    ensures ids(serials[i]) != ids(serials[j])
  {
    assert serials[i] < serials[j];
  }

  /* ----- one process after another ----- */

  /** Randomness drawn by the present process. */
  predicate Recent(base: nat, answered: nat, k: Nonce) {
    match k case Started(_, n) => n > base case Answered(_, n) => n > answered
  }

  ghost predicate AnsweredSince(h: History, base: nat, answered: nat, boot: Time, k: Nonce) {
    && (k in h.answered && Recent(base, answered, k) ==> boot <= h.answered[k])
    && (k in h.completed && Recent(base, answered, k) ==> boot <= h.completed[k])
  }

  ghost predicate SessionHere(t: Table, base: nat, answered: nat, id: Id) {
    id in t.sessions ==> Recent(base, answered, t.sessions[id].nonce)
  }

  /** Every session is of this process, started at `boot`, and every handshake of this
      process was answered or completed since. */
  ghost predicate Here(t: Table, h: History, base: nat, answered: nat, boot: Time) {
    && base <= t.drawn && answered <= t.replies
    && (forall id {:trigger SessionHere(t, base, answered, id)} :: SessionHere(t, base, answered, id))
    && (forall k {:trigger AnsweredSince(h, base, answered, boot, k)} :: AnsweredSince(h, base, answered, boot, k))
  }

  lemma StartHere(t: Table, h: History, base: nat, answered: nat, boot: Time, peers: set<Key>, next: Id, peer: Key, now: Time)
    requires Here(t, h, base, answered, boot)
    ensures var (t', r) := StartStep(t, peers, next, peer, now); Here(t', RecordSent(h, r, now), base, answered, boot)
  {
    var (t', r) := StartStep(t, peers, next, peer, now);
    forall id ensures SessionHere(t', base, answered, id) { assert SessionHere(t, base, answered, id); }
    forall k ensures AnsweredSince(RecordSent(h, r, now), base, answered, boot, k) { assert AnsweredSince(h, base, answered, boot, k); }
  }

  lemma SealHere(t: Table, h: History, base: nat, answered: nat, boot: Time, id: Id, body: Body, now: Time)
    requires Here(t, h, base, answered, boot)
    ensures var (t', r) := SealStep(t, id, body, now); Here(t', RecordSent(h, r, now), base, answered, boot)
  {
    var (t', r) := SealStep(t, id, body, now);
    forall i ensures SessionHere(t', base, answered, i) { assert SessionHere(t, base, answered, i); }
    forall k ensures AnsweredSince(RecordSent(h, r, now), base, answered, boot, k) { assert AnsweredSince(h, base, answered, boot, k); }
  }

  lemma ReceiveHere(t: Table, h: History, base: nat, answered: nat, boot: Time, peers: set<Key>, p: Packet, genuine: bool, admitted: bool, now: Time)
    requires Here(t, h, base, answered, boot) && boot <= now
    ensures var (t', e) := ReceiveStep(t, peers, p, genuine, admitted, now);
      Here(t', RecordReceived(Expired(t, now), h, p, e, now), base, answered, boot)
  {
    var (t', e) := ReceiveStep(t, peers, p, genuine, admitted, now);
    var h' := RecordReceived(Expired(t, now), h, p, e, now);
    forall id ensures SessionHere(t', base, answered, id) {
      assert SessionHere(t, base, answered, id);
      if id in t'.sessions { ReceivedSession(t, peers, p, genuine, admitted, now, id); }
    }
    forall k ensures AnsweredSince(h', base, answered, boot, k) { assert AnsweredSince(h, base, answered, boot, k); }
  }

  lemma PruneHere(t: Table, h: History, base: nat, answered: nat, boot: Time, kept: map<Id, Session>)
    requires Here(t, h, base, answered, boot) && kept.Keys <= t.sessions.Keys
    requires forall id :: id in kept ==> kept[id] == t.sessions[id].(unused := kept[id].unused)
    ensures Here(t.(sessions := kept), h, base, answered, boot)
  {
    forall id ensures SessionHere(t.(sessions := kept), base, answered, id) { assert SessionHere(t, base, answered, id); }
  }

  /** A new process: no sessions, new randomness, new IDs. */
  function Rebooted(t: Table): Table {
    Table(t.self, t.drawn, map[], 0, t.replies)
  }

  lemma RebootHere(t: Table, clock: Time, h: History, now: Time)
    requires Fits(t, clock, h) && clock <= now
    ensures Fits(Rebooted(t), now, h) && Here(Rebooted(t), h, t.drawn, t.replies, now)
  {
    var t', m := Rebooted(t), At(t, clock);
    HistoryStaysFit(m, h, At(t', now), h);
    forall k ensures AnsweredSince(h, t.drawn, t.replies, now, k) { assert NonceDrawn(m, h, k); }
  }
}
