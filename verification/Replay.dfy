/** The 64-bit replay window of secure.go, the scheme of section 3.4.3 of RFC 4303. */
module Replay {
  import opened Bits

  /** The bitmap remembers exactly the accepted counters fewer than 64 behind. */
  ghost predicate Tracks(highest: nat, window: nat, accepted: set<nat>) {
    && window < Pow2(64)
    && (forall n :: n in accepted ==> n <= highest)
    && (accepted == {} ==> highest == 0)
    && (forall d: nat {:trigger Bit(window, d)} :: d < 64 ==> (Bit(window, d) <==> d <= highest && highest - d in accepted))
  }

  /** Counter `n` is new, as far as the bitmap tells. */
  predicate Unseen(highest: nat, window: nat, n: nat) {
    n > highest || (highest - n < 64 && !Bit(window, highest - n))
  }

  /** The bitmap's answer is the right one. */
  lemma UnseenIsNew(highest: nat, window: nat, accepted: set<nat>, n: nat)
    requires Tracks(highest, window, accepted)
    ensures Unseen(highest, window, n) <==> n !in accepted && n + 64 > highest
  {
    if n <= highest && highest - n < 64 {
      assert Bit(window, highest - n) <==> n in accepted;
    }
  }

  lemma EmptyWindowTracks()
    ensures Tracks(0, 0, {})
  {
    forall d: nat | d < 64 ensures !Bit(0, d) {
      BitOfZero(d);
    }
  }

  /** Advance the window to an accepted counter. */
  function Advanced(highest: nat, window: nat, n: nat): (nat, nat) {
    if n > highest then (n, ShiftLeft(window, n - highest)) else (highest, window)
  }

  /** Advance the window and mark the counter. */
  function Marked(highest: nat, window: nat, n: nat): (nat, nat) {
    var (top, bits) := Advanced(highest, window, n);
    (top, SetBit(bits, top - n))
  }

  lemma AdvancedTracks(highest: nat, window: nat, accepted: set<nat>, n: nat)
    requires Tracks(highest, window, accepted)
    ensures var (top, bits) := Advanced(highest, window, n); n <= top && bits < Pow2(64) && forall d: nat {:trigger Bit(bits, d)} :: d < 64 ==> (Bit(bits, d) <==> d <= top && top - d in accepted)
  {
    var (top, bits) := Advanced(highest, window, n);
    if n > highest {
      forall d: nat | d < 64 ensures Bit(bits, d) <==> d <= n && n - d in accepted {
        BitOfShift(window, n - highest, d);
        if d >= n - highest {
          assert Bit(window, d - (n - highest)) <==> d <= n && n - d in accepted;
        }
      }
    }
  }

  /** After marking, the bitmap tracks one more counter. */
  lemma MarkedTracks(highest: nat, window: nat, accepted: set<nat>, n: nat)
    requires Tracks(highest, window, accepted) && Unseen(highest, window, n)
    ensures var (top, bits) := Marked(highest, window, n); Tracks(top, bits, accepted + {n})
  {
    var (top, bits) := Advanced(highest, window, n);
    AdvancedTracks(highest, window, accepted, n);
    if !Bit(bits, top - n) { SumStaysBelow(bits, top - n, 64); }
    SetBitAdds(top, bits, SetBit(bits, top - n), accepted, n);
  }

  lemma SetBitAdds(top: nat, bits: nat, marked: nat, accepted: set<nat>, n: nat)
    requires n <= top && marked == SetBit(bits, top - n)
    requires forall d: nat {:trigger Bit(bits, d)} :: d < 64 ==> (Bit(bits, d) <==> d <= top && top - d in accepted)
    ensures forall d: nat {:trigger Bit(marked, d)} :: d < 64 ==> (Bit(marked, d) <==> d <= top && top - d in accepted + {n})
  {
    forall d: nat | d < 64 ensures Bit(marked, d) <==> d <= top && top - d in accepted + {n} {
      BitOfSetBit(bits, top - n, d);
      assert Bit(bits, d) <==> d <= top && top - d in accepted;
    }
  }
}
