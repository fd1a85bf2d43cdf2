/**
 The playback decisions of js/main.js: which player a tracker trigger uses,
 the guard at the top of playSample, and when the "hjonk" button is enabled
 after calibration.  The audio output itself (GrainPlayer, Oscillator) is
 outside the model; a played sample is represented by the reference and
 target frequencies from which the player's detune is computed.
 */
module Playback {

  /** The two ways a trigger is voiced. */
  datatype Player = SamplePlayer | TonePlayer

  /** What playSample does. */
  datatype SampleOutcome =
    | NotPlayed                                 // the guard returned early
    | Grain(reference: real, target: real)      // a pitch-shifted sample from reference to target

  /** A trigger plays the sample when a sample buffer exists and its pitch was calibrated,
      and a tone otherwise. */
  function ChoosePlayer(sampleLoaded: bool, sampleFreq: real): (p: Player)
    ensures p == SamplePlayer <==> sampleLoaded && sampleFreq > 0.0
  {
    if sampleLoaded && sampleFreq > 0.0 then SamplePlayer else TonePlayer
  }

  /** playSample: nothing is played unless the sample's calibrated pitch is positive;
      otherwise the sample is shifted from its calibrated pitch to the requested one. */
  function PlaySample(sampleFreq: real, pitch: real): (o: SampleOutcome)
    ensures o == NotPlayed <==> sampleFreq <= 0.0
    ensures o != NotPlayed ==> o == Grain(sampleFreq, pitch)
  {
    if sampleFreq <= 0.0 then NotPlayed else Grain(sampleFreq, pitch)
  }

  /** After calibration the button is enabled exactly when the calibrated pitch is positive;
      a pitch of -1 or less shows the failure message instead. */
  predicate HjonkEnabled(sampleFreq: real) {
    !(sampleFreq <= 0.0)
  }

  /** A trigger routed to the sample player always gets past playSample's guard. */
  lemma ChosenSampleIsPlayed(sampleLoaded: bool, sampleFreq: real, pitch: real)
    requires ChoosePlayer(sampleLoaded, sampleFreq) == SamplePlayer
    ensures PlaySample(sampleFreq, pitch) == Grain(sampleFreq, pitch)
  {
  }

  /** The button plays the sample at its own pitch, which happens exactly when it was enabled. */
  lemma HjonkPlaysWhenEnabled(sampleFreq: real)
    ensures PlaySample(sampleFreq, sampleFreq) != NotPlayed <==> HjonkEnabled(sampleFreq)
  {
  }
}
