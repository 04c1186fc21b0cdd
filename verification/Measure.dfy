/** Round-trip times and the improvement policy (mesh.go, config.go). */
module Measure {
  import opened Common

  /** The timing and improvement policy that readConfig admits. */
  datatype Config = Config(probe: Time, window: Time, failure: Time, cooldown: Time, minGain: Time, gain: real)
  {
    predicate Legal() {
      && SECOND <= 10 * probe && probe <= SECOND
      && 3 * probe <= window <= MINUTE
      && 2 * probe <= failure <= window
      && probe <= cooldown && 0 <= minGain && 0.0 <= gain < 1.0
    }
  }

  /** One round trip; `ping` names the probe it answers, `session` the session that
      brought the answer. */
  datatype Sample = Sample(at: Time, rtt: Time, ping: nat, session: nat)
  datatype Measurements = Measurements(since: Option<Time>, samples: seq<Sample>)

  const MAX_SAMPLES := 1024

  function Recent(samples: seq<Sample>, now: Time, window: Time): (r: seq<Sample>)
    ensures |r| <= |samples|
  {
    if samples == [] then []
    else Recent(samples[..|samples| - 1], now, window) + (if now - samples[|samples| - 1].at <= window then [samples[|samples| - 1]] else [])
  }

  function Add(w: Measurements, s: Sample, window: Time): Measurements {
    var kept := Recent(w.samples, s.at, window);
    w.(samples := if |kept| < MAX_SAMPLES then kept + [s] else kept)
  }

  /** What is recent was there before, at most once for each time it was there. */
  lemma {:induction false} RecentIsOld(samples: seq<Sample>, now: Time, window: Time)
    ensures forall i :: 0 <= i < |Recent(samples, now, window)| ==> Recent(samples, now, window)[i] in samples
    ensures Distinct(samples) ==> Distinct(Recent(samples, now, window))
    decreases |samples|
  {
    if samples != [] {
      var init, last := samples[..|samples| - 1], samples[|samples| - 1];
      RecentIsOld(init, now, window);
      assert samples == init + [last];
    }
  }

  /** Exactly the samples that are at most `window` old are recent, each as often as it
      was there. */
  lemma {:induction false} RecentIsExact(samples: seq<Sample>, now: Time, window: Time, s: Sample)
    ensures multiset(Recent(samples, now, window))[s] == if now - s.at <= window then multiset(samples)[s] else 0
    ensures s in Recent(samples, now, window) <==> s in samples && now - s.at <= window
    decreases |samples|
  {
    if samples != [] {
      var init, last := samples[..|samples| - 1], samples[|samples| - 1];
      RecentIsExact(init, now, window, s);
      assert samples == init + [last];
    }
    assert s in multiset(Recent(samples, now, window)) <==> s in Recent(samples, now, window);
    assert s in multiset(samples) <==> s in samples;
  }

  /** A new sample joins the recent ones, unless 1024 are recent already. */
  lemma AddIsExact(w: Measurements, s: Sample, window: Time, t: Sample)
    ensures multiset(Add(w, s, window).samples)[t]
         == (if s.at - t.at <= window then multiset(w.samples)[t] else 0) + (if t == s && |Young(w.samples, s.at, window)| < 1024 then 1 else 0)
    ensures |Add(w, s, window).samples| <= |w.samples| + 1 && Add(w, s, window).since == w.since
  {
    RecentIsExact(w.samples, s.at, window, t);
    RecentCounts(w.samples, s.at, window, 0);
  }

  ghost predicate Distinct(samples: seq<Sample>) {
    forall i, j :: 0 <= i < j < |samples| ==> samples[i].ping != samples[j].ping
  }

  function Times(samples: seq<Sample>): (r: seq<Time>)
    ensures |r| == |samples|
  {
    seq(|samples|, i requires 0 <= i < |samples| => samples[i].rtt)
  }

  function Insert(x: Time, v: seq<Time>): (r: seq<Time>)
    ensures |r| == |v| + 1
  {
    if v == [] || x <= v[0] then [x] + v else [v[0]] + Insert(x, v[1..])
  }

  function Sort(v: seq<Time>): (r: seq<Time>)
    ensures |r| == |v|
  {
    if v == [] then [] else Insert(v[0], Sort(v[1..]))
  }

  /** How many samples a median takes: four fifths of the probes of a window, rounded up. */
  function Needed(c: Config): (n: nat)
    requires c.Legal()
    ensures n >= 3 && 10 * n >= 8 * (c.window / c.probe) > 10 * (n - 1)
  {
    ThreeProbes(c.window, c.probe);
    (c.window / c.probe * 8 + 9) / 10
  }

  lemma ThreeProbes(window: Time, probe: Time)
    requires 0 < probe && 3 * probe <= window
    ensures window / probe >= 3
  {
    var q := window / probe;
    assert window == probe * q + window % probe;
    assert q <= 2 ==> probe * q <= probe * 2;
  }

  function Median(w: Measurements, now: Time, c: Config): Option<Time>
    requires c.Legal()
  {
    if w.since.None? || now - w.since.value < c.window then None
    else
      var values := Times(Recent(w.samples, now, c.window));
      if |values| < Needed(c) then None else Some(Sort(values)[|values| / 2])
  }

  method MedianOf(w: Measurements, now: Time, c: Config) returns (m: Option<Time>)
    requires c.Legal()
    ensures m == Median(w, now, c)
    ensures m.Some? <==>
              w.since.Some? && now - w.since.value >= c.window && 10 * |Young(w.samples, now, c.window)| >= 8 * (c.window / c.probe)
    ensures m.Some? ==> Middle(w.samples, now, c.window, m.value)
  {
    MedianIsMiddle(w, now, c);
    if w.since.None? || now - w.since.value < c.window { return None; }
    var values := [];
    for i := 0 to |w.samples|
      invariant values == Times(Recent(w.samples[..i], now, c.window))
    {
      assert w.samples[..i + 1][..i] == w.samples[..i];
      if now - w.samples[i].at <= c.window { values := values + [w.samples[i].rtt]; }
    }
    assert w.samples[..|w.samples|] == w.samples;
    if |values| < Needed(c) { return None; }
    var sorted := Sort(values);
    m := Some(sorted[|values| / 2]);
  }

  predicate Improves(candidate: Time, baseline: Time, c: Config) {
    candidate < baseline && baseline - candidate >= c.minGain && candidate as real <= baseline as real * (1.0 - c.gain)
  }

  /* ----- what the median means ----- */

  function AtMost(v: seq<Time>, x: Time): nat {
    if v == [] then 0 else (if v[0] <= x then 1 else 0) + AtMost(v[1..], x)
  }

  ghost predicate Ordered(v: seq<Time>) {
    forall i, j :: 0 <= i < j < |v| ==> v[i] <= v[j]
  }

  lemma {:induction false} InsertKeeps(x: Time, v: seq<Time>, y: Time)
    ensures AtMost(Insert(x, v), y) == AtMost([x], y) + AtMost(v, y)
    ensures multiset(Insert(x, v)) == multiset([x]) + multiset(v)
  {
    if v != [] && v[0] < x {
      InsertKeeps(x, v[1..], y);
      assert v == [v[0]] + v[1..];
      assert Insert(x, v)[1..] == Insert(x, v[1..]);
    } else {
      assert Insert(x, v)[1..] == v;
    }
  }

  lemma {:induction false} InsertOrders(x: Time, v: seq<Time>)
    requires Ordered(v)
    ensures Ordered(Insert(x, v))
    ensures v != [] ==> Insert(x, v)[0] == x || Insert(x, v)[0] == v[0]
  {
    if v != [] && v[0] < x {
      InsertOrders(x, v[1..]);
      OrderedFrom(v[0], Insert(x, v[1..]));
    }
  }

  lemma OrderedFrom(x: Time, v: seq<Time>)
    requires Ordered(v) && (v != [] ==> x <= v[0])
    ensures Ordered([x] + v)
  {
  }

  lemma {:induction false} SortSorts(v: seq<Time>, y: Time)
    ensures Ordered(Sort(v)) && AtMost(Sort(v), y) == AtMost(v, y)
    ensures multiset(Sort(v)) == multiset(v)
  {
    if v != [] {
      SortSorts(v[1..], y);
      InsertKeeps(v[0], Sort(v[1..]), y);
      InsertOrders(v[0], Sort(v[1..]));
      assert v == [v[0]] + v[1..];
    }
  }

  /** In order, the counts are positions. */
  lemma {:induction false} OrderedCounts(v: seq<Time>, k: nat)
    requires Ordered(v) && k < |v|
    ensures AtMost(v, v[k]) > k && AtMost(v, v[k] - 1) <= k
  {
    if k == 0 {
      NoneBelow(v, v[0] - 1);
    } else {
      OrderedCounts(v[1..], k - 1);
    }
  }

  lemma {:induction false} NoneBelow(v: seq<Time>, x: Time)
    requires forall i :: 0 <= i < |v| ==> v[i] > x
    ensures AtMost(v, x) == 0
  {
    if v != [] { NoneBelow(v[1..], x); }
  }

  /** Which samples are at most `window` old. */
  ghost function Young(samples: seq<Sample>, now: Time, window: Time): set<nat> {
    set i: nat | i < |samples| && now - samples[i].at <= window
  }

  /** Of these, the ones of at most `x`. */
  ghost function Quick(samples: seq<Sample>, now: Time, window: Time, x: Time): set<nat> {
    set i: nat | i in Young(samples, now, window) && i < |samples| && samples[i].rtt <= x
  }

  lemma {:induction false} AtMostExtends(v: seq<Time>, y: Time, x: Time)
    ensures AtMost(v + [y], x) == AtMost(v, x) + (if y <= x then 1 else 0)
  {
    if v == [] {
      assert v + [y] == [y];
    } else {
      AtMostExtends(v[1..], y, x);
      assert (v + [y])[1..] == v[1..] + [y];
    }
  }

  /** The recent samples, counted by their places. */
  lemma {:induction false} RecentCounts(samples: seq<Sample>, now: Time, window: Time, x: Time)
    ensures |Recent(samples, now, window)| == |Young(samples, now, window)|
    ensures AtMost(Times(Recent(samples, now, window)), x) == |Quick(samples, now, window, x)|
    decreases |samples|
  {
    if samples == [] {
      assert Young(samples, now, window) == {} && Quick(samples, now, window, x) == {};
    } else {
      var n := |samples| - 1;
      var init, last := samples[..n], samples[n];
      RecentCounts(init, now, window, x);
      YoungExtends(samples, now, window, x);
      if now - last.at <= window {
        assert Times(Recent(samples, now, window)) == Times(Recent(init, now, window)) + [last.rtt];
        AtMostExtends(Times(Recent(init, now, window)), last.rtt, x);
      } else {
        assert Recent(samples, now, window) == Recent(init, now, window);
      }
    }
  }

  lemma YoungExtends(samples: seq<Sample>, now: Time, window: Time, x: Time)
    requires samples != []
    ensures var n := |samples| - 1; var young, quick := Young(samples[..n], now, window), Quick(samples[..n], now, window, x);
      && n !in young && n !in quick
      && Young(samples, now, window) == (if now - samples[n].at <= window then young + {n} else young)
      && Quick(samples, now, window, x) == (if now - samples[n].at <= window && samples[n].rtt <= x then quick + {n} else quick)
  {
  }

  /** The middle of the round trips at most `window` old: one of them, with more than half
      no longer than it and at most half shorter. */
  ghost predicate Middle(samples: seq<Sample>, now: Time, window: Time, m: Time) {
    && (exists i :: i in Young(samples, now, window) && samples[i].rtt == m)
    && 2 * |Quick(samples, now, window, m)| > |Young(samples, now, window)|
    && 2 * |Quick(samples, now, window, m - 1)| <= |Young(samples, now, window)|
  }

  /** Only one value is the middle. */
  lemma MiddleIsOne(samples: seq<Sample>, now: Time, window: Time, m: Time, m': Time)
    requires Middle(samples, now, window, m) && Middle(samples, now, window, m')
    ensures m == m'
  {
    if m < m' { SmallerSet(Quick(samples, now, window, m), Quick(samples, now, window, m' - 1)); }
    if m' < m { SmallerSet(Quick(samples, now, window, m'), Quick(samples, now, window, m - 1)); }
  }

  /** There is a median exactly if a whole window was measured and four fifths of its
      probes were answered; then it is the middle. */
  lemma MedianIsMiddle(w: Measurements, now: Time, c: Config)
    requires c.Legal()
    ensures Median(w, now, c).Some? <==>
              w.since.Some? && now - w.since.value >= c.window && 10 * |Young(w.samples, now, c.window)| >= 8 * (c.window / c.probe)
    ensures Median(w, now, c).Some? ==> Middle(w.samples, now, c.window, Median(w, now, c).value)
  {
    RecentCounts(w.samples, now, c.window, 0);
    Enough(|Young(w.samples, now, c.window)|, c);
    if Median(w, now, c).Some? { SortedMiddle(w.samples, now, c.window, Median(w, now, c).value); }
  }

  lemma Enough(n: nat, c: Config)
    requires c.Legal()
    ensures n >= Needed(c) <==> 10 * n >= 8 * (c.window / c.probe)
  {
    var probes := c.window / c.probe;
    assert Needed(c) == (probes * 8 + 9) / 10;
  }

  lemma SortedMiddle(samples: seq<Sample>, now: Time, window: Time, m: Time)
    requires var values := Times(Recent(samples, now, window)); values != [] && m == Sort(values)[|values| / 2]
    ensures Middle(samples, now, window, m)
  {
    var values := Times(Recent(samples, now, window));
    MiddleOfSorted(values, m);
    FewBelowMiddle(values, m, m - 1);
    RecentCounts(samples, now, window, m);
    RecentCounts(samples, now, window, m - 1);
    var i :| 0 <= i < |values| && values[i] == m;
    var s := Recent(samples, now, window)[i];
    RecentIsExact(samples, now, window, s);
    var k :| 0 <= k < |samples| && samples[k] == s;
    assert k in Young(samples, now, window);
  }

  lemma MiddleOfSorted(v: seq<Time>, m: Time)
    requires v != [] && m == Sort(v)[|v| / 2]
    ensures m in v && 2 * AtMost(v, m) > |v|
  {
    SortSorts(v, m);
    OrderedCounts(Sort(v), |v| / 2);
    assert m in multiset(Sort(v));
  }

  lemma FewBelowMiddle(v: seq<Time>, m: Time, below: Time)
    requires v != [] && m == Sort(v)[|v| / 2] && below == m - 1
    ensures 2 * AtMost(v, below) <= |v|
  {
    SortSorts(v, below);
    OrderedCounts(Sort(v), |v| / 2);
  }
}
