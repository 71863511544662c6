# BPSK satellite link, modelled in Dafny

This project models the signal-processing core of a small BPSK (binary
phase-shift keying) link simulator. The core has four parts:

- the modulator, which maps each data bit to an antipodal real symbol: +1 for a
  bit equal to 1, -1 for anything else;
- the additive channel, which adds one noise sample to each symbol;
- the hard-decision demodulator, which maps a strictly positive symbol to 1 and
  everything else, including exactly 0, to 0;
- the bit-error rate, which is the number of differing positions divided by the
  length of the transmitted block.

It also models the run that wires these together: modulate, add noise,
demodulate, measure. The random data bits and the Gaussian noise samples are
parameters. So a run is a deterministic function of the data block and one noise
realisation.

Modules, one per component:

- `Bpsk` (`bpsk.dfy`) holds the constellation map, the modulator, the demodulator
  and the noiseless round trip.
- `Channel` (`channel.dfy`) holds the additive channel and the exact condition
  under which a noise sample flips a bit (`Survives`).
- `ErrorRate` (`ber.dfy`) holds the error count, the error rate and its error
  results.
- `Link` (`link.dfy`) holds one simulation run and the laws that relate its
  measured rate to the noise.

Bits are `int`, because the modulator compares each value with 1 and takes any
other value as 0. A value other than 0 or 1 is therefore accepted, sent as -1,
and always comes back wrong. Symbols and noise samples are `real`.

Facts about the code that shape the model:

- The code has no QPSK modulator or demodulator and does no ranking of schemes.
  The QPSK and 8PSK figures at pyback.py:144-145 are placeholder formulas, so
  neither is modelled.
- For blocks of unequal length, the elementwise `!=` at pyback.py:69 raises
  unless one block has length 1 and is broadcast. The model returns
  `Err(LengthMismatch)` for every length mismatch.
- For an empty block, pyback.py:70 divides 0 by 0, which gives NaN rather than
  an exception. The model returns `Err(EmptyBlock)` for that case.

## Model

| member | source | states |
|---|---|---|
| Bpsk.Symbol | pyback.py:52 | a single value becomes +1 or -1, and it is +1 exactly when the value equals 1 |
| Bpsk.Decide | pyback.py:57 | a single received value becomes bit 0 or 1, and it is 1 exactly when the value is strictly positive; 0 itself decides for 0 |
| Bpsk.Modulate | pyback.py:51-53 | the symbol block is as long as the bit block; every symbol is +1 or -1, and it is +1 exactly where the bit equals 1 |
| Bpsk.Demodulate | pyback.py:56-58 | the bit block is as long as the symbol block; every output is 0 or 1, and it is 1 exactly where the symbol is strictly positive |
| Bpsk.RoundTrip | pyback.py:51-58 | demodulating the modulated block gives the input back if and only if every input value is 0 or 1 |
| Bpsk.DecideIsNearest | pyback.py:52-57 | the decided bit's constellation point is never farther from the received value than the other point, and the tie at 0 goes to -1 |
| Bpsk.RemodulateIdempotent | pyback.py:51-58 | after one decision, modulating and deciding again changes nothing |
| Channel.AddNoise | pyback.py:65 | the received block is as long as the sent one, and each received value exceeds its sent symbol by exactly its noise sample |
| Channel.SilentChannel | pyback.py:65 | an all-zero noise block leaves the symbols unchanged |
| Channel.Recover | pyback.py:52-65 | bits pass through modulator, channel and demodulator; each output is binary, and it equals the sent bit exactly when the bit is 1 with noise above -1, or 0 with noise at most +1 |
| Channel.SilenceRecoversAll | pyback.py:52-65 | with zero noise every binary bit comes back intact |
| Channel.MarginRecoversAll | pyback.py:52-65 | noise strictly above -1 and at most +1 at every position leaves every binary bit intact |
| ErrorRate.Errors | pyback.py:69 | the error count of two equally long blocks is at most their length; it is 0 exactly when they are equal, and equals the length exactly when they differ everywhere |
| ErrorRate.ErrorsCountDifferences | pyback.py:69 | the recursive error count equals the size of the set of differing positions |
| ErrorRate.ErrorsSymmetric | pyback.py:69 | swapping the two blocks does not change the error count |
| ErrorRate.Ber | pyback.py:68-70 | unequal lengths give a length-mismatch error and an empty block gives an empty-block error; otherwise the rate times the length is the number of differing positions, the rate is in [0,1], it is 0 exactly when the blocks are equal, and 1 exactly when they differ everywhere |
| ErrorRate.BerSymmetric | pyback.py:68-70 | the rate, or the error, is the same whichever block is passed first |
| Link.Simulate | pyback.py:121-136 | a run yields transmitted, received and recovered blocks as long as the data; the transmitted block is the modulated data, received equals transmitted plus noise, and the rate is the error rate of the recovered block against the data: measured for any non-empty block and an empty-block error for an empty one |
| Link.DifferencesAreCrossings | pyback.py:121-135 | the positions the run gets wrong are exactly those whose noise sample crosses the decision boundary for the bit sent |
| Link.BerCountsCrossings | pyback.py:121-136 | the measured rate times the block length is the number of boundary crossings |
| Link.NoiselessRunIsErrorFree | pyback.py:121-136 | a noiseless run on binary data measures rate 0 |
| Link.BerExtremes | pyback.py:121-136 | a run measures rate 0 exactly when no sample crosses the boundary, and rate 1 exactly when every sample does |
| Link.NoiselessExample | pyback.py:121-136 | the block 1,0,1,1,0,0,1,0 is sent as +1,-1,+1,+1,-1,-1,+1,-1 and, without noise, is recovered unchanged with rate 0 |

## Left out

- Random generation of the data bits (pyback.py:118) is out because it is randomness. The bits are a parameter of `Link.Simulate`.
- Gaussian noise draws and their scaling (pyback.py:62-64) are out because they use randomness, floating-point exponentiation and a square root. The noise realisation is a parameter of the same length as the symbol block, as the source always draws one sample per symbol.
- Floating-point rounding is not modelled. Symbols, noise and the rate are exact reals.
- ErrorRate.Ber: numpy broadcasting is not modelled. The source broadcasts a block of length 1 against a longer one, where the model reports a length mismatch. What this hides: the source can then return a rate above 1 (a sent block [1] against a received [0,1,0] gives 2.0), and it is asymmetric there (the same pair the other way round gives 2/3). So the [0,1] bound of `ErrorRate.Ber` and `ErrorRate.BerSymmetric` hold only because such inputs are errors in the model.
- The placeholder QPSK and 8PSK figures (pyback.py:142-146) are illustrative formulas, not measurements, so they are out.
- No QPSK modulator or demodulator, and no ranking of schemes, exists in the code. None is modelled.
- The page styling, narrative text and widgets (pyback.py:6-48, 100-116, 137-150) are out because they are user interface only.
- Constellation and comparison plotting (pyback.py:73-97) is out because it is rendering only.
