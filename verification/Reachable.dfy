/** What the invariant of the route machine says about every reachable state. */
module Reachable {
  import opened Common
  import opened Story
  import opened Mesh

  /** At most one of a pending replacement, a saved previous route and a rekey; each
      in its own phase; and a phase exactly when something is selected. */
  lemma Exclusive(s: State)
    requires Fit(s)
    ensures !(s.r.replacement.Some? && s.r.previous.Some?) && !(s.r.replacement.Some? && s.r.rekey.Some?) && !(s.r.previous.Some? && s.r.rekey.Some?)
    ensures s.r.replacement.Some? || s.r.rekey.Some? ==> s.r.route.phase == Active
    ensures s.r.previous.Some? ==> s.r.route.phase == Trial
    ensures s.r.route.phase == Idle <==> s.r.route.selected.None?
    ensures s.r.replacement.Some? ==> Some(s.r.replacement.value.path) != s.r.route.selected
  {
    assert Holds(Protocol, s);
  }

  /** The bounded cache refuses every token for the whole retention period, even
      through saturation. */
  lemma CacheRefuses(s: State, t: Token, now: Time)
    requires Fit(s) && t in s.h.ledger.gone && s.h.event.latest <= now < s.h.ledger.gone[t] + RETIRED
    ensures now < s.k.until || (t in s.k.retired && now < s.k.retired[t])
    ensures |s.k.retired| <= MAX_RETIRED
  {
    assert Holds(Tokens, s);
  }

  /** No token is silently lost. */
  lemma NoTokenLost(s: State, t: Token)
    requires Fit(s) && t in s.h.ledger.used
    ensures t in s.h.ledger.gone || Current(s.r.route, s.r.replacement, s.r.previous, t)
  {
    assert Holds(Tokens, s);
  }

  /** Each tunnel sample is the round trip of a ping that was sent on the same session
      while the installation now in force was in force. */
  lemma OwnSample(s: State, i: nat)
    requires Fit(s) && i < |s.r.route.tunnel.samples|
    ensures var x := s.r.route.tunnel.samples[i]; x.ping in s.h.trips.pings && s.h.trips.pings[x.ping] == Trip(s.h.trips.now, x.session, x.at - x.rtt)
  {
    assert Holds(Measures, s);
    assert Answer(s.r.route.tunnel.samples[i], s.h.trips.pings, s.h.trips.now);
  }

  /** No ping is counted twice. */
  lemma DistinctSamples(s: State, i: nat, j: nat)
    requires Fit(s) && i < j < |s.r.route.tunnel.samples|
    ensures s.r.route.tunnel.samples[i].ping != s.r.route.tunnel.samples[j].ping
  {
    assert Holds(Measures, s);
  }
}
