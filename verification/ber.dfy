/**
 The bit-error rate: the fraction of positions at which the recovered block
 differs from the transmitted one, relative to the transmitted block's length.

 The source compares the two blocks elementwise, which fails when their
 lengths differ, and divides by the transmitted length, which has no value
 for an empty block; both are error results here.
 */
module ErrorRate {

  datatype BerError =
    | LengthMismatch   // the two blocks cannot be compared position by position
    | EmptyBlock       // no bits were sent, so the rate 0/0 is undefined

  datatype Result<T> = Ok(value: T) | Err(error: BerError)

  /** The positions at which two blocks disagree. */
  function Differences(sent: seq<int>, got: seq<int>): set<int>
    requires |got| == |sent|
  {
    set i | 0 <= i < |sent| && sent[i] != got[i]
  }

  /** Whether the two blocks disagree at every position. */
  predicate Opposite(sent: seq<int>, got: seq<int>)
    requires |got| == |sent|
  {
    forall i :: 0 <= i < |sent| ==> sent[i] != got[i]
  }

  /** The number of positions at which two equally long blocks differ, counted
      from the last position backwards. */
  function Errors(sent: seq<int>, got: seq<int>): (count: nat)
    requires |got| == |sent|
    ensures count <= |sent|
    ensures count == 0 <==> sent == got
    ensures count == |sent| <==> Opposite(sent, got)
    decreases |sent|
  {
    if |sent| == 0 then 0
    else
      var n := |sent| - 1;
      var rest := Errors(sent[..n], got[..n]);
      assert sent == sent[..n] + [sent[n]] && got == got[..n] + [got[n]];
      assert Opposite(sent, got) ==> Opposite(sent[..n], got[..n]);
      rest + (if sent[n] != got[n] then 1 else 0)
  }

  /** The error count is exactly the number of differing positions. */
  lemma {:induction false} ErrorsCountDifferences(sent: seq<int>, got: seq<int>)
    requires |got| == |sent|
    ensures Errors(sent, got) == |Differences(sent, got)|
    decreases |sent|
  {
    if |sent| > 0 {
      var n := |sent| - 1;
      ErrorsCountDifferences(sent[..n], got[..n]);
      var head := Differences(sent[..n], got[..n]);
      var last: set<int> := if sent[n] != got[n] then {n} else {};
      assert Differences(sent, got) == head + last;
      assert n !in head;
    }
  }

  /** Counting errors does not depend on which block is called the original. */
  lemma {:induction false} ErrorsSymmetric(sent: seq<int>, got: seq<int>)
    requires |got| == |sent|
    ensures Errors(sent, got) == Errors(got, sent)
    decreases |sent|
  {
    if |sent| > 0 {
      var n := |sent| - 1;
      ErrorsSymmetric(sent[..n], got[..n]);
    }
  }

  /** A count of at most `total` out of `total`, as a fraction. */
  lemma FractionBounds(count: nat, total: nat)
    requires 0 < total && count <= total
    ensures (count as real / total as real) * total as real == count as real
    ensures 0.0 <= count as real / total as real <= 1.0
    ensures count as real / total as real == 0.0 <==> count == 0
    ensures count as real / total as real == 1.0 <==> count == total
  {
  }

  /** The bit-error rate of a recovered block against the sent one. */
  function Ber(sent: seq<int>, got: seq<int>): (r: Result<real>)
    ensures |sent| != |got| <==> r == Err(LengthMismatch)
    ensures |sent| == |got| && |sent| == 0 <==> r == Err(EmptyBlock)
    ensures r.Ok? ==> r.value * |sent| as real == |Differences(sent, got)| as real
    ensures r.Ok? ==> 0.0 <= r.value <= 1.0
    ensures r.Ok? ==> (r.value == 0.0 <==> sent == got)
    ensures r.Ok? ==> (r.value == 1.0 <==> Opposite(sent, got))
  {
    if |sent| != |got| then Err(LengthMismatch)
    else if |sent| == 0 then Err(EmptyBlock)
    else
      ErrorsCountDifferences(sent, got);
      FractionBounds(Errors(sent, got), |sent|);
      Ok(Errors(sent, got) as real / |sent| as real)
  }

  /** The rate is the same whichever block is passed first. */
  lemma BerSymmetric(sent: seq<int>, got: seq<int>)
    ensures Ber(sent, got) == Ber(got, sent)
  {
    if |sent| == |got| {
      ErrorsSymmetric(sent, got);
    }
  }
}
