/** The fixed-window limiter of secure.go. */
module Rate {
  import opened Common

  /** One admission: when, and in which window. */
  datatype Admission = Admission(at: Time, window: nat)

  ghost predicate InWindow(starts: seq<Time>, e: Admission) {
    e.window < |starts| && starts[e.window] <= e.at < starts[e.window] + SECOND
  }

  /** Windows open at least a second apart. */
  ghost predicate Spaced(starts: seq<Time>) {
    forall a, b :: 0 <= a < b < |starts| ==> starts[b] >= starts[a] + SECOND
  }

  ghost predicate LaterWindow(admitted: seq<Admission>, i: int, j: int)
    requires 0 <= i < |admitted| && 0 <= j < |admitted|
  {
    admitted[i].window < admitted[j].window
  }

  /** Each admission lies in its window, no window holds more than the limit, and
      the open window holds exactly the last `used` admissions. */
  ghost predicate Log(limit: nat, used: nat, starts: seq<Time>, admitted: seq<Admission>) {
    && used <= limit && used <= |admitted| && (admitted != [] ==> limit > 0)
    && (forall i {:trigger InWindow(starts, admitted[i])} :: 0 <= i < |admitted| ==> InWindow(starts, admitted[i]))
    && (forall i :: 0 <= i < |admitted| - used ==> admitted[i].window < |starts| - 1)
    && (forall i :: |admitted| - used <= i < |admitted| ==> admitted[i].window == |starts| - 1)
    && (forall i, j {:trigger LaterWindow(admitted, i, j)} :: 0 <= i && i + limit <= j < |admitted| ==> LaterWindow(admitted, i, j))
  }

  /** The limiter's fields, and the history behind them. */
  ghost predicate Consistent(limit: nat, until: Time, used: nat, clock: Time, starts: seq<Time>, admitted: seq<Admission>) {
    && Log(limit, used, starts, admitted) && Spaced(starts)
    && (if starts == [] then until <= clock else until == starts[|starts| - 1] + SECOND && starts[|starts| - 1] <= clock)
  }

  lemma OpenKeeps(limit: nat, until: Time, used: nat, clock: Time, starts: seq<Time>, admitted: seq<Admission>, now: Time)
    requires Consistent(limit, until, used, clock, starts, admitted) && clock <= now && until <= now
    ensures Consistent(limit, now + SECOND, 0, now, starts + [now], admitted)
  {
    LogOpens(limit, used, starts, admitted, now);
  }

  lemma AdmitKeeps(limit: nat, until: Time, used: nat, clock: Time, starts: seq<Time>, admitted: seq<Admission>)
    requires Consistent(limit, until, used, clock, starts, admitted) && clock < until && used < limit
    ensures starts != [] && Consistent(limit, until, used + 1, clock, starts, admitted + [Admission(clock, |starts| - 1)])
  {
    LogAdmits(limit, used, starts, admitted, Admission(clock, |starts| - 1));
  }

  lemma LogOpens(limit: nat, used: nat, starts: seq<Time>, admitted: seq<Admission>, now: Time)
    requires Log(limit, used, starts, admitted)
    ensures Log(limit, 0, starts + [now], admitted)
  {
    forall i | 0 <= i < |admitted| ensures InWindow(starts + [now], admitted[i]) {
      assert InWindow(starts, admitted[i]);
    }
  }

  lemma LogAdmits(limit: nat, used: nat, starts: seq<Time>, admitted: seq<Admission>, e: Admission)
    requires Log(limit, used, starts, admitted) && used < limit
    requires e.window == |starts| - 1 && InWindow(starts, e)
    ensures Log(limit, used + 1, starts, admitted + [e])
  {
    var log := admitted + [e];
    forall i | 0 <= i < |log| ensures InWindow(starts, log[i]) {
      if i < |admitted| { assert InWindow(starts, admitted[i]); }
    }
    forall i, j | 0 <= i && i + limit <= j < |log| ensures LaterWindow(log, i, j) {
      assert j < |admitted| ==> LaterWindow(admitted, i, j);
    }
  }

  /** Any more admissions in a row than twice the limit span more than a second. */
  lemma TwiceTheLimit(limit: nat, used: nat, starts: seq<Time>, admitted: seq<Admission>, i: nat, j: nat)
    requires Log(limit, used, starts, admitted) && Spaced(starts)
    requires i + 2 * limit <= j < |admitted|
    ensures admitted[j].at > admitted[i].at + SECOND
  {
    var m := i + limit;
    assert LaterWindow(admitted, i, m) && LaterWindow(admitted, m, j);
    assert InWindow(starts, admitted[i]) && InWindow(starts, admitted[j]);
    var a, b := admitted[i].window, admitted[j].window;
    assert starts[b] >= starts[a + 1] + SECOND;
    assert starts[a + 1] >= starts[a] + SECOND;
  }

  class SecureRate {
    const limit: nat
    var until: Time
    var used: nat
    ghost var clock: Time
    ghost var starts: seq<Time>
    ghost var admitted: seq<Admission>

    ghost predicate Valid()
      reads this
    {
      Consistent(limit, until, used, clock, starts, admitted)
    }

    constructor (limit: nat)
      ensures Valid() && this.limit == limit && admitted == [] && clock == 0
    {
      this.limit := limit;
      until, used, clock, starts, admitted := 0, 0, 0, [], [];
    }

    /** Admit one event, unless the open window is full. */
    method Allow(now: Time) returns (ok: bool)
      requires Valid() && clock <= now
      modifies this
      ensures Valid() && clock == now
      ensures ok ==> |admitted| == |old(admitted)| + 1 && admitted[..|old(admitted)|] == old(admitted) && admitted[|old(admitted)|].at == now
      ensures !ok ==> admitted == old(admitted) && now < until && used == limit
    {
      if !(now < until) {
        OpenKeeps(limit, until, used, clock, starts, admitted, now);
        until, used := now + SECOND, 0;
        starts := starts + [now];
      }
      clock := now;
      if used >= limit { return false; }
      AdmitKeeps(limit, until, used, clock, starts, admitted);
      used := used + 1;
      admitted := admitted + [Admission(now, |starts| - 1)];
      ok := true;
    }
  }
}
