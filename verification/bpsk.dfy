/**
 Binary phase-shift keying: the modulator that maps each data bit to a real
 baseband symbol on the in-phase axis, and the hard-decision demodulator that
 maps a received symbol back to a bit by its sign.

 Bits are plain integers: the modulator compares each input value with 1, so
 a value other than 0 or 1 is accepted and treated like 0.
 */
module Bpsk {

  /** A value that is a proper binary digit. */
  predicate IsBit(b: int) {
    b == 0 || b == 1
  }

  /** Every element of `bits` is 0 or 1. */
  predicate IsBinary(bits: seq<int>) {
    forall i :: 0 <= i < |bits| ==> IsBit(bits[i])
  }

  /** The constellation point a single value is sent as. */
  function Symbol(b: int): (s: real)
    ensures s == 1.0 || s == -1.0
    ensures s > 0.0 <==> b == 1
  {
    if b == 1 then 1.0 else -1.0
  }

  /** The hard sign decision on a single received value; the tie at 0 goes to bit 0. */
  function Decide(s: real): (b: int)
    ensures IsBit(b)
    ensures b == 1 <==> s > 0.0
  {
    if s > 0.0 then 1 else 0
  }

  /** Modulates a block of bits: one antipodal symbol per bit, in order. */
  function Modulate(bits: seq<int>): (symbols: seq<real>)
    ensures |symbols| == |bits|
    ensures forall i :: 0 <= i < |bits| ==> (symbols[i] == 1.0 || symbols[i] == -1.0)
    ensures forall i :: 0 <= i < |bits| ==> (symbols[i] == 1.0 <==> bits[i] == 1)
  {
    seq(|bits|, i requires 0 <= i < |bits| => Symbol(bits[i]))
  }

  /** Demodulates a block of received symbols: one bit decision per symbol, in order. */
  function Demodulate(symbols: seq<real>): (bits: seq<int>)
    ensures |bits| == |symbols|
    ensures IsBinary(bits)
    ensures forall i :: 0 <= i < |symbols| ==> (bits[i] == 1 <==> symbols[i] > 0.0)
  {
    seq(|symbols|, i requires 0 <= i < |symbols| => Decide(symbols[i]))
  }

  /** The demodulator inverts the modulator exactly on binary input, and only there:
      a value other than 0 or 1 is sent as -1 and comes back as 0. */
  lemma RoundTrip(bits: seq<int>)
    ensures Demodulate(Modulate(bits)) == bits <==> IsBinary(bits)
  {
  }

  /** The distance between two points on the in-phase axis. */
  function Distance(x: real, y: real): real {
    if x >= y then x - y else y - x
  }

  /** The hard decision picks the constellation point nearest to the received value;
      at the tie, 0, both points are at distance 1 and the decision goes to -1. */
  lemma DecideIsNearest(s: real)
    ensures Distance(s, Symbol(Decide(s))) <= Distance(s, Symbol(1 - Decide(s)))
    ensures s == 0.0 ==> Symbol(Decide(s)) == -1.0
  {
  }

  /** Re-modulating a demodulated block and deciding again changes nothing more. */
  lemma RemodulateIdempotent(symbols: seq<real>)
    ensures Demodulate(Modulate(Demodulate(symbols))) == Demodulate(symbols)
  {
    RoundTrip(Demodulate(symbols));
  }
}
