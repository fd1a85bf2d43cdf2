/**
 Sample calibration (getSamplePitch in js/main.js).

 While the uploaded sample plays for one second, every analysis frame is run
 through the estimator; each estimate other than -1 and 5512.5 is pushed onto
 freqs.  When the second is over, the calibrated pitch is the arithmetic mean
 of freqs, or -1 when nothing was collected.  The analysis clock is replaced
 by the finite sequence of frames the window delivers.
 */
module Calibrator {
  import opened Autocorrelation
  import opened PitchTracker
  import opened Playback

  /** The estimates that are pushed onto freqs, in their original order. */
  function Collected(ests: seq<real>): (fs: seq<real>)
    ensures |fs| <= |ests|
    ensures forall k :: 0 <= k < |fs| ==> !IsSpurious(fs[k]) && fs[k] in ests
    decreases |ests|
  {
    if ests == [] then []
    else
      var last := ests[|ests| - 1];
      Collected(ests[..|ests| - 1]) + (if IsSpurious(last) then [] else [last])
  }

  /** freqs.reduce((acc, curr) => acc + curr): the left-to-right sum. */
  function Sum(xs: seq<real>): real
    decreases |xs|
  {
    if xs == [] then 0.0 else Sum(xs[..|xs| - 1]) + xs[|xs| - 1]
  }

  function Mean(xs: seq<real>): real
    requires xs != []
  {
    Sum(xs) / |xs| as real
  }

  /** The calibrated pitch for the estimates of the window: their mean over the collected ones, or -1. */
  function Calibration(ests: seq<real>): real {
    var freqs := Collected(ests);
    if |freqs| > 0 then Mean(freqs) else NoPitch
  }

  /** The estimate of each frame of the window. */
  ghost function FrameEstimates(frames: seq<seq<byte>>, sampleRate: real): (ests: seq<real>)
    requires forall k :: 0 <= k < |frames| ==> LongEnough(frames[k])
    ensures |ests| == |frames|
    ensures forall k :: 0 <= k < |frames| ==> ests[k] == Estimate(frames[k], sampleRate)
  {
    seq(|frames|, k requires 0 <= k < |frames| => Estimate(frames[k], sampleRate))
  }

  /** getSamplePitch over the frames of the calibration window. */
  method GetSamplePitch(frames: seq<seq<byte>>, sampleRate: real) returns (pitch: real)
    requires forall k :: 0 <= k < |frames| ==> LongEnough(frames[k])
    ensures pitch == Calibration(FrameEstimates(frames, sampleRate))
  {
    ghost var ests := FrameEstimates(frames, sampleRate);
    var freqs: seq<real> := [];
    var k := 0;
    while k < |frames|
      invariant 0 <= k <= |frames|
      invariant freqs == Collected(ests[..k])
    {
      var fundamentalFreq := FindFundamentalFreq(frames[k], sampleRate);
      if !IsSpurious(fundamentalFreq) {
        freqs := freqs + [fundamentalFreq];
      }
      assert ests[..k + 1][..k] == ests[..k];
      k := k + 1;
    }
    assert ests[..k] == ests;
    if |freqs| > 0 {
      pitch := Sum(freqs) / |freqs| as real;
    } else {
      pitch := NoPitch;
    }
  }

  /** Nothing is collected exactly when every estimate of the window is -1 or 5512.5. */
  lemma {:induction false} CollectedEmptyIff(ests: seq<real>)
    ensures Collected(ests) == [] <==> forall k :: 0 <= k < |ests| ==> IsSpurious(ests[k])
    decreases |ests|
  {
    if ests != [] {
      CollectedEmptyIff(ests[..|ests| - 1]);
      assert forall k :: 0 <= k < |ests| - 1 ==> ests[..|ests| - 1][k] == ests[k];
    }
  }

  lemma OneMore(m: real, x: real)
    ensures (m + 1.0) * x == m * x + x
  {
  }

  /** A sum of n values in [lo, hi] lies in [n * lo, n * hi]. */
  lemma {:induction false} SumBounds(xs: seq<real>, lo: real, hi: real)
    requires forall k :: 0 <= k < |xs| ==> lo <= xs[k] <= hi
    ensures |xs| as real * lo <= Sum(xs) <= |xs| as real * hi
    decreases |xs|
  {
    if xs != [] {
      var init, x := xs[..|xs| - 1], xs[|xs| - 1];
      assert forall k :: 0 <= k < |init| ==> init[k] == xs[k];
      SumBounds(init, lo, hi);
      assert Sum(xs) == Sum(init) + x;
      var m := |init| as real;
      assert |xs| as real == m + 1.0;
      OneMore(m, lo);
      OneMore(m, hi);
    }
  }

  /** The mean of values in [lo, hi] lies in [lo, hi]: the mean lies between the minimum and the maximum. */
  lemma MeanBounds(xs: seq<real>, lo: real, hi: real)
    requires xs != []
    requires forall k :: 0 <= k < |xs| ==> lo <= xs[k] <= hi
    ensures lo <= Mean(xs) <= hi
  {
    SumBounds(xs, lo, hi);
    var n := |xs| as real;
    assert Mean(xs) * n == Sum(xs);
  }

  /** At a positive sample rate calibration fails (-1) exactly when no frame gave an estimate other
      than -1 or 5512.5; otherwise the pitch is the mean of the collected estimates and lies in
      [sampleRate/1000, sampleRate/8], so it is positive and the button is enabled. */
  lemma CalibrationOutcome(frames: seq<seq<byte>>, sampleRate: real)
    requires forall k :: 0 <= k < |frames| ==> LongEnough(frames[k])
    requires sampleRate > 0.0
    ensures var ests := FrameEstimates(frames, sampleRate);
            Calibration(ests) == NoPitch <==> forall k :: 0 <= k < |ests| ==> IsSpurious(ests[k])
    ensures var pitch := Calibration(FrameEstimates(frames, sampleRate));
            pitch != NoPitch ==>
              && pitch == Mean(Collected(FrameEstimates(frames, sampleRate)))
              && sampleRate / MaxLag as real <= pitch <= sampleRate / MinLag as real
    ensures (HjonkEnabled(Calibration(FrameEstimates(frames, sampleRate)))
             <==> Collected(FrameEstimates(frames, sampleRate)) != [])
  {
    var ests := FrameEstimates(frames, sampleRate);
    var freqs := Collected(ests);
    CollectedEmptyIff(ests);
    var lo, hi := sampleRate / MaxLag as real, sampleRate / MinLag as real;
    if freqs != [] {
      forall k | 0 <= k < |freqs|
        ensures lo <= freqs[k] <= hi
      {
        var j :| 0 <= j < |ests| && ests[j] == freqs[k];
        EstimateRange(frames[j], sampleRate);
      }
      MeanBounds(freqs, lo, hi);
    }
  }

  /** Three frames that estimate 440, 442 and 438 Hz calibrate to 440 Hz. */
  lemma ThreeEstimatesAverage()
    ensures Calibration([440.0, 442.0, 438.0]) == 440.0
  {
    var ests := [440.0, 442.0, 438.0];
    assert ests[..2] == [440.0, 442.0] && ests[..2][..1] == [440.0] && [440.0][..0] == [];
    assert Collected(ests) == [440.0, 442.0, 438.0];
    var fs := [440.0, 442.0, 438.0];
    assert fs[..2] == [440.0, 442.0] && fs[..2][..1] == [440.0] && [440.0][..0] == [];
    assert Sum(fs) == 1320.0;
  }

  /** A window whose frames give only -1 and 5512.5 fails to calibrate. */
  lemma OnlyDiscardedEstimatesFail()
    ensures Calibration([NoPitch, 5512.5, NoPitch]) == NoPitch
  {
    var ests := [NoPitch, 5512.5, NoPitch];
    CollectedEmptyIff(ests);
  }
}
