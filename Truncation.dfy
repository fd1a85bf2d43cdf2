/**
 Truncation of an uploaded sample to one second (the sample-upload handler of js/main.js).

 A new buffer with the same number of channels and min(sampleRate, length)
 frames is allocated, and each channel's prefix of that length is copied into
 it, channel by channel and frame by frame.
 */
module Truncation {

  function Min(a: nat, b: nat): (m: nat)
    ensures m <= a && m <= b && (m == a || m == b)
  {
    if a <= b then a else b
  }

  /** Copies the first min(sampleRate, length) frames of every channel into a fresh buffer. */
  method TruncateToOneSecond(input: seq<seq<real>>, length: nat, sampleRate: nat)
    returns (sample: array2<real>)
    requires forall c :: 0 <= c < |input| ==> |input[c]| == length
    ensures fresh(sample)
    ensures sample.Length0 == |input| && sample.Length1 == Min(sampleRate, length)
    ensures forall c, j :: 0 <= c < sample.Length0 && 0 <= j < sample.Length1 ==>
              sample[c, j] == input[c][j]
  {
    sample := new real[|input|, Min(sampleRate, length)];
    var i := 0;
    while i < |input|
      invariant 0 <= i <= |input|
      invariant forall c, j :: 0 <= c < i && 0 <= j < sample.Length1 ==> sample[c, j] == input[c][j]
    {
      var j := 0;
      while j < sample.Length1
        invariant 0 <= j <= sample.Length1
        invariant forall c, k :: 0 <= c < i && 0 <= k < sample.Length1 ==> sample[c, k] == input[c][k]
        invariant forall k :: 0 <= k < j ==> sample[i, k] == input[i][k]
      {
        sample[i, j] := input[i][j];
        j := j + 1;
      }
      i := i + 1;
    }
  }
}
