/**
 The per-tick decision of detectPitch in js/main.js.

 Each tick takes the previous tick's raw estimate (prevFreq, -1 on the first
 tick) and this tick's estimate.  An estimate of -1 or of the literal 5512.5
 is treated as no signal: the labels show "---" and nothing is played.  Any
 other estimate is shown with its closest note, and triggers playback when
 it differs from prevFreq by more than 0.2% of prevFreq; the trigger plays
 the sample when one is loaded and calibrated, and a tone otherwise.  The
 next tick receives this tick's raw estimate, whatever it was.

 Step is that decision as a pure function; Track folds it over a finite
 sequence of estimates; DetectPitch is one whole tick on a frame.
 */
module PitchTracker {
  import opened Autocorrelation
  import opened NoteTable
  import opened Playback

  /** The prevFreq of the first tick (detectPitch(-1) when playback starts). */
  const InitialPrev: real := -1.0
  /** The estimate the callers discard as the minimum-lag artifact (44100 / 8). */
  const SpuriousLiteral: real := 5512.5
  /** The relative change that counts as a new note (0.2%). */
  const Hysteresis: real := 0.002

  /** The estimates that the tracker and the calibrator discard. */
  predicate IsSpurious(f: real) {
    f == NoPitch || f == SpuriousLiteral
  }

  function Abs(x: real): real {
    if x >= 0.0 then x else -x
  }

  /** The hysteresis test: the estimate moved by more than 0.2% of the previous one. */
  predicate NoteChanged(f: real, prev: real) {
    Abs(f - prev) > prev * Hysteresis
  }

  /** The frequency label: "---" or the detected frequency. */
  datatype Display = NoSignal | Detected(frequency: real)

  /** Whether the tick starts playback, with which player and at which pitch. */
  datatype Trigger = Quiet | Play(player: Player, pitch: real)

  /** The outcome of one tick, with the prevFreq handed to the next tick. */
  datatype Decision = Decision(display: Display, trigger: Trigger, nextPrev: real)

  /** One tracker tick on estimate est, given the previous tick's estimate prev. */
  function Step(prev: real, est: real, sampleLoaded: bool, sampleFreq: real): (d: Decision)
    ensures d.nextPrev == est
    ensures d.display == NoSignal <==> IsSpurious(est)
    ensures d.display != NoSignal ==> d.display == Detected(est)
    ensures d.trigger != Quiet <==> !IsSpurious(est) && NoteChanged(est, prev)
    ensures d.trigger != Quiet ==> d.trigger == Play(ChoosePlayer(sampleLoaded, sampleFreq), est)
  {
    if !IsSpurious(est) then
      var trigger := if NoteChanged(est, prev) then Play(ChoosePlayer(sampleLoaded, sampleFreq), est) else Quiet;
      Decision(Detected(est), trigger, est)
    else
      Decision(NoSignal, Quiet, est)
  }

  /** Because the first prevFreq is -1, the first valid detection always triggers. */
  lemma FirstDetectionTriggers(est: real, sampleLoaded: bool, sampleFreq: real)
    requires !IsSpurious(est)
    ensures Step(InitialPrev, est, sampleLoaded, sampleFreq).trigger
              == Play(ChoosePlayer(sampleLoaded, sampleFreq), est)
  {
  }

  /** The decisions of consecutive ticks fed the estimates ests, starting from prevFreq prev. */
  function Track(prev: real, ests: seq<real>, sampleLoaded: bool, sampleFreq: real): (ds: seq<Decision>)
    ensures |ds| == |ests|
    decreases |ests|
  {
    if ests == [] then []
    else [Step(prev, ests[0], sampleLoaded, sampleFreq)] + Track(ests[0], ests[1..], sampleLoaded, sampleFreq)
  }

  /** The prevFreq that tick i sees: the initial one, or the raw estimate of tick i - 1. */
  function PrevAt(prev: real, ests: seq<real>, i: nat): real
    requires i < |ests|
  {
    if i == 0 then prev else ests[i - 1]
  }

  /** Tick i of a run decides on its own estimate against the raw estimate of the tick before. */
  lemma {:induction false} TrackAt(prev: real, ests: seq<real>, sampleLoaded: bool, sampleFreq: real, i: nat)
    requires i < |ests|
    ensures Track(prev, ests, sampleLoaded, sampleFreq)[i]
              == Step(PrevAt(prev, ests, i), ests[i], sampleLoaded, sampleFreq)
    decreases i
  {
    if i > 0 {
      TrackAt(ests[0], ests[1..], sampleLoaded, sampleFreq, i - 1);
      assert PrevAt(ests[0], ests[1..], i - 1) == PrevAt(prev, ests, i);
    }
  }

  /** A sustained pitch, each estimate within 0.2% of the one before, triggers only on its first tick. */
  lemma SustainedPitchTriggersOnce(ests: seq<real>, sampleLoaded: bool, sampleFreq: real)
    requires |ests| > 0
    requires forall i :: 0 <= i < |ests| ==> !IsSpurious(ests[i])
    requires forall i :: 0 < i < |ests| ==> !NoteChanged(ests[i], ests[i - 1])
    ensures Track(InitialPrev, ests, sampleLoaded, sampleFreq)[0].trigger
              == Play(ChoosePlayer(sampleLoaded, sampleFreq), ests[0])
    ensures forall i :: 0 < i < |ests| ==> Track(InitialPrev, ests, sampleLoaded, sampleFreq)[i].trigger == Quiet
  {
    TrackAt(InitialPrev, ests, sampleLoaded, sampleFreq, 0);
    forall i | 0 < i < |ests|
      ensures Track(InitialPrev, ests, sampleLoaded, sampleFreq)[i].trigger == Quiet
    {
      TrackAt(InitialPrev, ests, sampleLoaded, sampleFreq, i);
    }
  }

  /** A pitch that moves by more than 0.2% on every tick triggers on every tick. */
  lemma ChangingPitchAlwaysTriggers(ests: seq<real>, sampleLoaded: bool, sampleFreq: real)
    requires forall i :: 0 <= i < |ests| ==> !IsSpurious(ests[i])
    requires forall i :: 0 < i < |ests| ==> NoteChanged(ests[i], ests[i - 1])
    ensures forall i :: 0 <= i < |ests| ==>
              Track(InitialPrev, ests, sampleLoaded, sampleFreq)[i].trigger
                == Play(ChoosePlayer(sampleLoaded, sampleFreq), ests[i])
  {
    forall i | 0 <= i < |ests|
      ensures Track(InitialPrev, ests, sampleLoaded, sampleFreq)[i].trigger
                == Play(ChoosePlayer(sampleLoaded, sampleFreq), ests[i])
    {
      TrackAt(InitialPrev, ests, sampleLoaded, sampleFreq, i);
    }
  }

  /** A discarded tick never shows a pitch or triggers, and since the raw -1 is carried on,
      the next valid estimate after a -1 tick always triggers again. */
  lemma DropoutRetriggers(prev: real, ests: seq<real>, sampleLoaded: bool, sampleFreq: real, i: nat)
    requires i < |ests|
    ensures IsSpurious(ests[i]) ==>
              Track(prev, ests, sampleLoaded, sampleFreq)[i] == Decision(NoSignal, Quiet, ests[i])
    ensures 0 < i && ests[i - 1] == NoPitch && !IsSpurious(ests[i]) ==>
              Track(prev, ests, sampleLoaded, sampleFreq)[i].trigger
                == Play(ChoosePlayer(sampleLoaded, sampleFreq), ests[i])
  {
    TrackAt(prev, ests, sampleLoaded, sampleFreq, i);
  }

  /** Two identical ticks at 440 Hz: the first triggers, the second is suppressed. */
  lemma RepeatedToneTriggersOnce(sampleLoaded: bool, sampleFreq: real)
    ensures Track(InitialPrev, [440.0, 440.0], sampleLoaded, sampleFreq)
              == [ Decision(Detected(440.0), Play(ChoosePlayer(sampleLoaded, sampleFreq), 440.0), 440.0),
                   Decision(Detected(440.0), Quiet, 440.0) ]
  {
    assert [440.0, 440.0][1..] == [440.0];
    assert Track(440.0, [440.0], sampleLoaded, sampleFreq) == [Decision(Detected(440.0), Quiet, 440.0)];
  }

  /** The literal filter only hides the minimum-lag artifact at 44100 Hz.  At 48000 Hz a constant
      frame at least 7 away from 128 is estimated at 6000 Hz, which is shown and triggers. */
  lemma ConstantFrameTriggersAt48kHz(b: seq<byte>, c: byte, sampleLoaded: bool, sampleFreq: real)
    requires LongEnough(b)
    requires forall i :: 0 <= i < |b| ==> b[i] == c
    requires c <= 121 || c >= 135
    ensures Estimate(b, 48000.0) == 6000.0
    ensures Step(InitialPrev, Estimate(b, 48000.0), sampleLoaded, sampleFreq)
              == Decision(Detected(6000.0), Play(ChoosePlayer(sampleLoaded, sampleFreq), 6000.0), 6000.0)
  {
    ConstantFrameIsMinimumLag(b, c, 48000.0);
  }

  /** The note label: "---", or the closest table entry. */
  datatype NoteLabel = Dashes | Named(entry: NoteEntry)

  /** One tick of detectPitch on a frame: estimate, label with the closest note, decide. */
  method DetectPitch(buffer: seq<byte>, sampleRate: real, prevFreq: real, notes: seq<NoteEntry>,
                     sampleLoaded: bool, sampleFreq: real)
    returns (d: Decision, noteLabel: NoteLabel)
    requires LongEnough(buffer) && sampleRate > 0.0
    requires StrictlyAscending(notes) && |notes| > 0
    requires notes[0].frequency <= sampleRate / MaxLag as real
    requires sampleRate / MinLag as real <= notes[|notes| - 1].frequency
    ensures d == Step(prevFreq, Estimate(buffer, sampleRate), sampleLoaded, sampleFreq)
    ensures noteLabel == Dashes <==> d.display == NoSignal
    ensures noteLabel != Dashes ==> IsClosest(notes, d.display.frequency, noteLabel.entry)
  {
    var fundamentalFreq := FindFundamentalFreq(buffer, sampleRate);
    if !IsSpurious(fundamentalFreq) {
      EstimateRange(buffer, sampleRate);
      var note := FindClosestNote(fundamentalFreq, notes);
      noteLabel := Named(note);
    } else {
      noteLabel := Dashes;
    }
    d := Step(prevFreq, fundamentalFreq, sampleLoaded, sampleFreq);
  }
}
