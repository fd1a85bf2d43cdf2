/**
 The autocorrelation pitch estimator (findFundamentalFreq in js/main.js).

 A frame is a sequence of unsigned 8-bit time-domain samples centred on 128.
 For each lag tau in MinLag..MaxLag the estimator correlates the first
 Products samples with the samples tau further on, normalised to [-1, 1],
 and divides the sum by Products + tau.  Because the inputs are bytes, every
 correlation is an exact rational, so the model computes with `real`:

   Corr(b, tau) = Sum_{i < 1024} (b[i]-128) * (b[i+tau]-128) / (16384 * (1024 + tau))

 The scan keeps the running best (bestR, bestTau), starting from (0, -1),
 replaces it only on a strictly larger correlation, and stops right after
 the first lag whose correlation exceeds StrongCorr.  The frequency
 sampleRate / bestTau is reported when bestR exceeds WeakCorr, and the
 sentinel NoPitch (-1) otherwise.
 */
module Autocorrelation {

  /** One unsigned 8-bit time-domain sample (an element of a Uint8Array). */
  type byte = x: int | 0 <= x < 256

  /** Number of products accumulated per lag (n). */
  const Products: nat := 1024
  /** Smallest and largest lag scanned. */
  const MinLag: nat := 8
  const MaxLag: nat := 1000
  /** A correlation above this ends the scan early. */
  const StrongCorr: real := 0.9
  /** The best correlation must exceed this for a pitch to be reported. */
  const WeakCorr: real := 0.0025
  /** The value returned when no pitch is detected. */
  const NoPitch: real := -1.0

  /** The frame is long enough for every read the scan makes. */
  ghost predicate LongEnough(b: seq<byte>) {
    |b| >= Products + MaxLag
  }

  /** A sample as a signed amplitude: its distance from the midpoint 128. */
  function Centred(x: byte): int {
    x as int - 128
  }

  /** Sum over i < k of the centred products (b[i]-128) * (b[i+tau]-128). */
  ghost function LaggedSum(b: seq<byte>, tau: nat, k: nat): int
    requires k + tau <= |b|
  {
    if k == 0 then 0
    else LaggedSum(b, tau, k - 1) + Centred(b[k - 1]) * Centred(b[k - 1 + tau])
  }

  /** The normalised autocorrelation at lag tau, as the source computes it exactly. */
  ghost function Corr(b: seq<byte>, tau: nat): real
    requires Products + tau <= |b|
  {
    LaggedSum(b, tau, Products) as real / (16384 * (Products + tau)) as real
  }

  /** The running best correlation after the lags MinLag..hi have been examined. */
  ghost function BestR(b: seq<byte>, hi: int): real
    requires LongEnough(b) && hi <= MaxLag
    decreases hi
  {
    if hi < MinLag then 0.0
    else if Corr(b, hi) > BestR(b, hi - 1) then Corr(b, hi)
    else BestR(b, hi - 1)
  }

  /** The lag of the running best after the lags MinLag..hi have been examined. */
  ghost function BestTau(b: seq<byte>, hi: int): (t: int)
    requires LongEnough(b) && hi <= MaxLag
    ensures t == -1 || MinLag <= t <= hi
    ensures t == -1 ==> BestR(b, hi) == 0.0
    decreases hi
  {
    if hi < MinLag then -1
    else if Corr(b, hi) > BestR(b, hi - 1) then hi
    else BestTau(b, hi - 1)
  }

  /** The last lag the scan examines when it reaches lag t: the first lag from t on
      whose correlation exceeds StrongCorr, or MaxLag if there is none. */
  ghost function StopFrom(b: seq<byte>, t: nat): (s: nat)
    requires LongEnough(b) && MinLag <= t <= MaxLag
    ensures t <= s <= MaxLag
    decreases MaxLag - t
  {
    if t == MaxLag || Corr(b, t) > StrongCorr then t else StopFrom(b, t + 1)
  }

  /** The last lag the whole scan examines. */
  ghost function LastLag(b: seq<byte>): nat
    requires LongEnough(b)
  {
    StopFrom(b, MinLag)
  }

  /** What findFundamentalFreq returns for frame b at the given sample rate. */
  ghost function Estimate(b: seq<byte>, sampleRate: real): real
    requires LongEnough(b)
  {
    var last := LastLag(b);
    if BestR(b, last) > WeakCorr then sampleRate / BestTau(b, last) as real else NoPitch
  }

  /** One normalised product, as the source forms it, is the centred integer product / 16384. */
  lemma NormalisedProduct(x: int, y: int)
    ensures (x as real / 128.0) * (y as real / 128.0) == (x * y) as real / 16384.0
  {
    assert (x as real / 128.0) * (y as real / 128.0) == (x as real * y as real) / 16384.0;
  }

  /** The correlation at one lag, computed with the source's two nested loops. */
  method LagCorrelation(buffer: seq<byte>, tau: nat) returns (r: real)
    requires Products + tau <= |buffer|
    ensures r == Corr(buffer, tau)
  {
    var n := Products;
    r := 0.0;
    var i := 0;
    while i < n
      invariant 0 <= i <= n
      invariant r == LaggedSum(buffer, tau, i) as real / 16384.0
    {
      NormalisedProduct(Centred(buffer[i]), Centred(buffer[i + tau]));
      r := r + (Centred(buffer[i]) as real / 128.0) * (Centred(buffer[i + tau]) as real / 128.0);
      i := i + 1;
    }
    r := r / (n + tau) as real;
  }

  /** findFundamentalFreq: the lag scan with its early exit, then the weak-correlation test. */
  method FindFundamentalFreq(buffer: seq<byte>, sampleRate: real) returns (freq: real)
    requires LongEnough(buffer)
    ensures freq == Estimate(buffer, sampleRate)
  {
    var bestR := 0.0;
    var bestTau := -1;
    var tau := MinLag;
    ghost var last := MaxLag;
    while tau <= MaxLag
      invariant MinLag <= tau <= MaxLag + 1
      invariant bestR == BestR(buffer, tau - 1) && bestTau == BestTau(buffer, tau - 1)
      invariant bestR <= StrongCorr
      invariant tau <= MaxLag ==> LastLag(buffer) == StopFrom(buffer, tau)
      invariant tau == MaxLag + 1 ==> LastLag(buffer) == MaxLag
    {
      var r := LagCorrelation(buffer, tau);
      assert BestR(buffer, tau) == if r > bestR then r else bestR;
      assert BestTau(buffer, tau) == if r > bestR then tau else bestTau;
      if r > bestR {
        bestR := r;
        bestTau := tau;
        if r > StrongCorr {
          last := tau;
          break;
        }
      }
      assert tau < MaxLag ==> StopFrom(buffer, tau) == StopFrom(buffer, tau + 1);
      tau := tau + 1;
    }
    assert last == LastLag(buffer);
    assert bestR == BestR(buffer, last) && bestTau == BestTau(buffer, last);
    if bestR > WeakCorr {
      freq := sampleRate / bestTau as real;
    } else {
      freq := NoPitch;
    }
  }

  /** After the lags MinLag..hi, the running best is the maximum (floored at the initial 0)
      of the correlations seen, and its lag is the smallest one attaining it: the strict
      comparison keeps the earlier lag on a tie.  No lag is kept when no correlation is positive. */
  lemma {:induction false} BestIsFirstMaximum(b: seq<byte>, hi: int)
    requires LongEnough(b) && hi <= MaxLag
    ensures BestR(b, hi) >= 0.0
    ensures forall t :: MinLag <= t <= hi ==> Corr(b, t) <= BestR(b, hi)
    ensures BestTau(b, hi) == -1 <==> forall t :: MinLag <= t <= hi ==> Corr(b, t) <= 0.0
    ensures BestTau(b, hi) != -1 ==>
              && BestR(b, hi) > 0.0
              && BestR(b, hi) == Corr(b, BestTau(b, hi))
              && forall t :: MinLag <= t < BestTau(b, hi) ==> Corr(b, t) < BestR(b, hi)
    decreases hi
  {
    if hi >= MinLag {
      BestIsFirstMaximum(b, hi - 1);
    }
  }

  /** The scan from lag t on examines every lag up to the first one whose correlation
      exceeds StrongCorr, and no lag after it. */
  lemma {:induction false} StopFromIsFirstStrong(b: seq<byte>, t: nat)
    requires LongEnough(b) && MinLag <= t <= MaxLag
    ensures forall u :: t <= u < StopFrom(b, t) ==> Corr(b, u) <= StrongCorr
    ensures StopFrom(b, t) < MaxLag ==> Corr(b, StopFrom(b, t)) > StrongCorr
    decreases MaxLag - t
  {
    if t < MaxLag && Corr(b, t) <= StrongCorr {
      StopFromIsFirstStrong(b, t + 1);
    }
  }

  /** The whole scan stops right after the first lag whose correlation exceeds StrongCorr;
      later lags are never examined, and when it reaches MaxLag no earlier lag was strong. */
  lemma LastLagIsFirstStrong(b: seq<byte>)
    requires LongEnough(b)
    ensures MinLag <= LastLag(b) <= MaxLag
    ensures forall t :: MinLag <= t < LastLag(b) ==> Corr(b, t) <= StrongCorr
    ensures LastLag(b) < MaxLag ==> Corr(b, LastLag(b)) > StrongCorr
  {
    StopFromIsFirstStrong(b, MinLag);
  }

  /** Dividing a positive rate by a lag in MinLag..MaxLag lands in [rate/MaxLag, rate/MinLag]. */
  lemma RateOverLag(sampleRate: real, tau: int)
    requires sampleRate > 0.0 && MinLag <= tau <= MaxLag
    ensures sampleRate / MaxLag as real <= sampleRate / tau as real <= sampleRate / MinLag as real
  {
    var q := sampleRate / tau as real;
    assert q * tau as real == sampleRate;
    assert q > 0.0;
    assert q * (tau - MinLag) as real >= 0.0 && q * (MaxLag - tau) as real >= 0.0;
    assert q * MinLag as real <= sampleRate <= q * MaxLag as real;
    assert sampleRate / MaxLag as real <= q by {
      assert (sampleRate / MaxLag as real) * MaxLag as real == sampleRate;
    }
  }

  /** At a positive sample rate the estimator reports NoPitch exactly when the best correlation
      found is at most WeakCorr; otherwise it reports sampleRate / bestTau for a lag bestTau of the
      scanned range, so the result lies in [sampleRate/1000, sampleRate/8]. */
  lemma EstimateRange(b: seq<byte>, sampleRate: real)
    requires LongEnough(b) && sampleRate > 0.0
    ensures Estimate(b, sampleRate) == NoPitch <==> BestR(b, LastLag(b)) <= WeakCorr
    ensures Estimate(b, sampleRate) != NoPitch ==>
              && MinLag <= BestTau(b, LastLag(b)) <= LastLag(b)
              && Estimate(b, sampleRate) == sampleRate / BestTau(b, LastLag(b)) as real
              && sampleRate / MaxLag as real <= Estimate(b, sampleRate) <= sampleRate / MinLag as real
  {
    var last := LastLag(b);
    LastLagIsFirstStrong(b);
    if BestR(b, last) > WeakCorr {
      RateOverLag(sampleRate, BestTau(b, last));
    }
  }

  /** A frame of silence has zero correlation at every lag. */
  lemma {:induction false} SilentSum(b: seq<byte>, tau: nat, k: nat)
    requires k + tau <= |b|
    requires forall i :: 0 <= i < |b| ==> b[i] == 128
    ensures LaggedSum(b, tau, k) == 0
  {
    if k > 0 {
      SilentSum(b, tau, k - 1);
    }
  }

  /** A frame of silence (every sample 128) yields NoPitch at any sample rate. */
  lemma SilenceIsUndetected(b: seq<byte>, sampleRate: real)
    requires LongEnough(b)
    requires forall i :: 0 <= i < |b| ==> b[i] == 128
    ensures Estimate(b, sampleRate) == NoPitch
  {
    forall t | MinLag <= t <= MaxLag
      ensures Corr(b, t) == 0.0
    {
      SilentSum(b, t, Products);
    }
    LastLagIsFirstStrong(b);
    BestIsFirstMaximum(b, LastLag(b));
  }

  /** In a constant frame every centred product is the square of the offset from 128. */
  lemma {:induction false} ConstantSum(b: seq<byte>, c: byte, tau: nat, k: nat)
    requires k + tau <= |b|
    requires forall i :: 0 <= i < |b| ==> b[i] == c
    ensures LaggedSum(b, tau, k) == k * (Centred(c) * Centred(c))
  {
    if k > 0 {
      ConstantSum(b, c, tau, k - 1);
    }
  }

  /** In a constant frame the correlation at lag t is (c-128)^2 / (16 * (1024 + t)). */
  lemma ConstantCorr(b: seq<byte>, c: byte, t: nat)
    requires Products + t <= |b|
    requires forall i :: 0 <= i < |b| ==> b[i] == c
    ensures Corr(b, t) == (Centred(c) * Centred(c)) as real / (16 * (Products + t)) as real
  {
    var sq := Centred(c) * Centred(c);
    ConstantSum(b, c, t, Products);
    var den := (16 * (Products + t)) as real;
    assert (16384 * (Products + t)) as real == 1024.0 * den;
    assert (1024 * sq) as real == 1024.0 * sq as real;
  }

  /** A non-negative numerator over a larger positive denominator is no larger. */
  lemma SmallerOverLarger(a: real, p: real, q: real)
    requires a >= 0.0 && 0.0 < p <= q
    ensures a / q <= a / p
  {
    assert (a / q) * q == a && (a / p) * p == a;
    assert (a / q) * p <= (a / q) * q;
  }

  /** Squares of offsets: at least 49 from 7 away, at most 36 within 6, positive unless 0. */
  lemma SquareThresholds(d: int)
    ensures (d <= -7 || d >= 7) ==> d * d >= 49
    ensures -6 <= d <= 6 ==> d * d <= 36
    ensures d != 0 ==> d * d > 0
  {
    if d >= 7 { assert d * d >= 7 * d; }
    else if d <= -7 { assert d * d >= -7 * d; }
    else if d >= 0 { assert d * d <= 6 * d; }
    else { assert d * d <= -6 * d; }
  }

  /** In a constant frame no lag correlates more than the minimum lag. */
  lemma ConstantPeaksAtMinLag(b: seq<byte>, c: byte)
    requires LongEnough(b)
    requires forall i :: 0 <= i < |b| ==> b[i] == c
    ensures Corr(b, MinLag) == (Centred(c) * Centred(c)) as real / 16512.0
    ensures forall t :: MinLag <= t <= MaxLag ==> Corr(b, t) <= Corr(b, MinLag)
  {
    var sq := Centred(c) * Centred(c);
    SquareThresholds(Centred(c));
    ConstantCorr(b, c, MinLag);
    forall t | MinLag <= t <= MaxLag
      ensures Corr(b, t) <= Corr(b, MinLag)
    {
      ConstantCorr(b, c, t);
      SmallerOverLarger(sq as real, (16 * (Products + MinLag)) as real, (16 * (Products + t)) as real);
    }
  }

  /** In a constant frame other than silence the scan keeps the minimum lag. */
  lemma ConstantKeepsMinLag(b: seq<byte>, c: byte)
    requires LongEnough(b) && c != 128
    requires forall i :: 0 <= i < |b| ==> b[i] == c
    ensures BestTau(b, LastLag(b)) == MinLag
    ensures BestR(b, LastLag(b)) == (Centred(c) * Centred(c)) as real / 16512.0
  {
    var last := LastLag(b);
    SquareThresholds(Centred(c));
    ConstantPeaksAtMinLag(b, c);
    LastLagIsFirstStrong(b);
    BestIsFirstMaximum(b, last);
    assert Corr(b, MinLag) > 0.0;
    assert BestTau(b, last) != -1;
  }

  /** A constant frame within 6 of 128 is undetected.  One at least 7 away correlates most at the
      minimum lag and is reported at sampleRate / 8. */
  lemma ConstantFrameIsMinimumLag(b: seq<byte>, c: byte, sampleRate: real)
    requires LongEnough(b)
    requires forall i :: 0 <= i < |b| ==> b[i] == c
    ensures Estimate(b, sampleRate) == if c <= 121 || c >= 135 then sampleRate / MinLag as real else NoPitch
  {
    if c == 128 {
      SilenceIsUndetected(b, sampleRate);
    } else {
      ConstantKeepsMinLag(b, c);
      SquareThresholds(Centred(c));
    }
  }

  /** 44100 / tau equals 5512.5 for no lag other than 8. */
  lemma QuotientIsMinimumLag(tau: int)
    requires MinLag <= tau <= MaxLag
    ensures 44100.0 / tau as real == 5512.5 <==> tau == MinLag
  {
    var q := 44100.0 / tau as real;
    assert q * tau as real == 44100.0;
    if q == 5512.5 {
      assert 5512.5 * tau as real == 44100.0;
    }
  }

  /** At 44100 Hz the callers' literal filter value 5512.5 is exactly the estimate produced
      by the minimum lag, and no other lag produces it. */
  lemma SpuriousLiteralIsMinimumLag(b: seq<byte>)
    requires LongEnough(b)
    ensures Estimate(b, 44100.0) == 5512.5 <==>
              BestR(b, LastLag(b)) > WeakCorr && BestTau(b, LastLag(b)) == MinLag
  {
    var last := LastLag(b);
    if BestR(b, last) > WeakCorr {
      var t := BestTau(b, last);
      assert Estimate(b, 44100.0) == 44100.0 / t as real;
      QuotientIsMinimumLag(t);
    }
  }

  /** The early exit is a heuristic, not a global maximum: the first lag whose correlation exceeds
      StrongCorr decides the estimate, whatever the correlations at later lags. */
  lemma FirstStrongLagDecides(b: seq<byte>, sampleRate: real, t: nat)
    requires LongEnough(b) && MinLag <= t <= MaxLag
    requires Corr(b, t) > StrongCorr
    requires forall u :: MinLag <= u < t ==> Corr(b, u) <= StrongCorr
    ensures LastLag(b) == t && BestTau(b, t) == t
    ensures Estimate(b, sampleRate) == sampleRate / t as real
  {
    LastLagIsFirstStrong(b);
    BestIsFirstMaximum(b, t);
  }
}
