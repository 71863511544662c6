/**
 The additive step of the noisy channel. The source draws Gaussian samples
 scaled from the signal-to-noise ratio and adds one to each symbol; here the
 samples are a caller-supplied sequence, one per symbol, so the channel is a
 deterministic function of the transmitted block and the noise realisation.
 */
module Channel {
  import opened Bpsk

  /** A noise realisation that leaves every symbol where it was. */
  function Silence(n: nat): (noise: seq<real>)
    ensures |noise| == n
    ensures forall i :: 0 <= i < n ==> noise[i] == 0.0
  {
    seq(n, i => 0.0)
  }

  /** Adds one noise sample to each transmitted symbol. */
  function AddNoise(symbols: seq<real>, noise: seq<real>): (received: seq<real>)
    requires |noise| == |symbols|
    ensures |received| == |symbols|
    ensures forall i :: 0 <= i < |symbols| ==> received[i] - symbols[i] == noise[i]
  {
    seq(|symbols|, i requires 0 <= i < |symbols| => symbols[i] + noise[i])
  }

  /** The channel with no noise is the identity. */
  lemma SilentChannel(symbols: seq<real>)
    ensures AddNoise(symbols, Silence(|symbols|)) == symbols
  {
  }

  /** Whether a bit survives a noise sample added to its symbol: a transmitted 1
      (at +1) needs the sample to stay above -1, and a transmitted 0 (at -1) needs
      it to stay at or below +1, since a received 0 decides for bit 0. A value
      other than 0 or 1 never survives. */
  predicate Survives(b: int, n: real) {
    (b == 1 && n > -1.0) || (b == 0 && n <= 1.0)
  }

  /** The bits recovered from a block sent through the channel. */
  function Recover(bits: seq<int>, noise: seq<real>): (recovered: seq<int>)
    requires |noise| == |bits|
    ensures |recovered| == |bits|
    ensures IsBinary(recovered)
    ensures forall i :: 0 <= i < |bits| ==> (recovered[i] == bits[i] <==> Survives(bits[i], noise[i]))
  {
    Demodulate(AddNoise(Modulate(bits), noise))
  }

  /** Zero noise leaves every binary bit intact. */
  lemma SilenceRecoversAll(bits: seq<int>)
    requires IsBinary(bits)
    ensures Recover(bits, Silence(|bits|)) == bits
  {
    SilentChannel(Modulate(bits));
    RoundTrip(bits);
  }

  /** Noise inside the half-open margin (-1, +1] never flips a binary bit. */
  lemma MarginRecoversAll(bits: seq<int>, noise: seq<real>)
    requires |noise| == |bits|
    requires IsBinary(bits)
    requires forall i :: 0 <= i < |noise| ==> -1.0 < noise[i] <= 1.0
    ensures Recover(bits, noise) == bits
  {
  }
}
