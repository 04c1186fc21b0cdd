/** What every part of the model shares. */
module Common {

  datatype Option<+T> = None | Some(value: T)

  /** A 32-byte key as a number; the all-zero key means "no key". */
  type Key = nat

  const ZERO_KEY: Key := 0

  /** Nanoseconds on one nondecreasing clock. */
  type Time = int

  const SECOND: Time := 1_000_000_000
  const MINUTE: Time := 60 * SECOND

  lemma {:induction false} SmallerSet<T>(a: set<T>, b: set<T>)
    requires a <= b
    ensures |a| <= |b|
  {
    if a != {} {
      var x :| x in a;
      SmallerSet(a - {x}, b - {x});
    }
  }
}
