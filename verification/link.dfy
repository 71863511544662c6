/**
 One run of the simulated link: modulate the data bits, send the symbols
 through the additive channel, demodulate what arrives, and measure the
 bit-error rate of the recovered block against the data. The random data
 bits and the random noise samples are parameters.
 */
module Link {
  import opened Bpsk
  import opened Channel
  import opened ErrorRate

  /** Everything one run hands back for display: both constellations, the
      recovered bits, and the measured rate. */
  datatype Run = Run(
    transmitted: seq<real>,
    received: seq<real>,
    recovered: seq<int>,
    ber: Result<real>)

  /** The positions whose noise sample pushed the symbol across the decision
      boundary, stated from the noise alone, without running the demodulator. */
  function Crossings(bits: seq<int>, noise: seq<real>): set<int>
    requires |noise| == |bits|
  {
    set i | 0 <= i < |bits| && !Survives(bits[i], noise[i])
  }

  /** Runs the link once on the given data and noise realisation. */
  function Simulate(bits: seq<int>, noise: seq<real>): (run: Run)
    requires |noise| == |bits|
    ensures |run.transmitted| == |run.received| == |run.recovered| == |bits|
    ensures run.transmitted == Modulate(bits)
    ensures forall i :: 0 <= i < |bits| ==> run.received[i] == run.transmitted[i] + noise[i]
    ensures run.recovered == Recover(bits, noise)
    ensures bits == [] <==> run.ber == Err(EmptyBlock)
    ensures run.ber.Ok? || run.ber == Err(EmptyBlock)
    ensures run.ber == Ber(bits, run.recovered)
  {
    var transmitted := Modulate(bits);
    var received := AddNoise(transmitted, noise);
    var recovered := Demodulate(received);
    Run(transmitted, received, recovered, Ber(bits, recovered))
  }

  /** The positions the demodulator gets wrong are exactly the noise crossings. */
  lemma DifferencesAreCrossings(bits: seq<int>, noise: seq<real>)
    requires |noise| == |bits|
    ensures Differences(bits, Recover(bits, noise)) == Crossings(bits, noise)
  {
  }

  /** The measured rate is the fraction of positions whose noise sample crossed
      the decision boundary. */
  lemma BerCountsCrossings(bits: seq<int>, noise: seq<real>)
    requires |noise| == |bits|
    requires bits != []
    ensures Simulate(bits, noise).ber.Ok?
    ensures Simulate(bits, noise).ber.value * |bits| as real == |Crossings(bits, noise)| as real
  {
    DifferencesAreCrossings(bits, noise);
  }

  /** A run without noise on binary data measures no errors. */
  lemma NoiselessRunIsErrorFree(bits: seq<int>)
    requires IsBinary(bits)
    requires bits != []
    ensures Simulate(bits, Silence(|bits|)).ber == Ok(0.0)
  {
    SilenceRecoversAll(bits);
  }

  /** A run measures rate 0 exactly when no sample crosses the boundary, and
      rate 1 exactly when every sample does. */
  lemma BerExtremes(bits: seq<int>, noise: seq<real>)
    requires |noise| == |bits|
    requires bits != []
    ensures Simulate(bits, noise).ber == Ok(0.0) <==> Crossings(bits, noise) == {}
    ensures Simulate(bits, noise).ber == Ok(1.0) <==>
              forall i :: 0 <= i < |bits| ==> !Survives(bits[i], noise[i])
  {
    BerCountsCrossings(bits, noise);
  }

  /** A worked block: eight bits sent without noise come back unchanged. */
  lemma NoiselessExample()
    ensures var run := Simulate([1, 0, 1, 1, 0, 0, 1, 0], Silence(8));
      && run.transmitted == [1.0, -1.0, 1.0, 1.0, -1.0, -1.0, 1.0, -1.0]
      && run.recovered == [1, 0, 1, 1, 0, 0, 1, 0]
      && run.ber == Ok(0.0)
  {
    var bits := [1, 0, 1, 1, 0, 0, 1, 0];
    assert IsBinary(bits);
    NoiselessRunIsErrorFree(bits);
    SilenceRecoversAll(bits);
  }
}
