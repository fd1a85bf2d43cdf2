# hjonk pitch detection, modelled in Dafny

hjonk is a browser toy. It plays an uploaded audio file, estimates the file's
fundamental pitch many times a second, shows the nearest musical note, and
plays a tone or a pitch-shifted sample whenever the pitch changes. A user can
also upload a short sample. The app calibrates the sample's own pitch once and
can then replay it at other pitches.

This project models the decision logic of `js/main.js` and proves its
properties:

- `Autocorrelation.dfy`: the autocorrelation estimator `findFundamentalFreq`.
  Frames are byte sequences. Correlations are exact `real` values. The scan
  over lags 8..1000 is a method with loop invariants. It is proved equal to a
  reference definition (`BestR`, `BestTau`, `LastLag`, `Estimate`). That
  definition is then shown to give the first maximum, to stop at the first
  strong lag, and to return a frequency in range.
- `NoteTable.dfy`: the binary search `findClosestNote`, proved against the
  predicate "nearest entry, ties to the higher one".
- `Playback.dfy`: which player a trigger uses, the guard in `playSample`, and
  when the "hjonk" button is enabled.
- `PitchTracker.dfy`: one tick of `detectPitch` as a pure step function
  (`Step`), a fold of that step over a finite run of ticks (`Track`), and
  `DetectPitch`, which runs one tick on a frame: estimator, closest note, then
  `Step`.
- `Calibrator.dfy`: `getSamplePitch`. It is a loop over the frames of the
  calibration window that collects the estimates not discarded and returns
  their mean, or -1.
- `Truncation.dfy`: the nested copy loop that cuts an uploaded sample to one
  second.

## Behaviour worth knowing

These facts about `js/main.js` shape the model:

- The closest-note lookup is not total. When the frequency is below the first
  entry, the final comparison (line 317) reads `notes[-1]`. When it is above
  the last entry, it reads `notes[notes.length]`. Each access throws. The model
  therefore requires the frequency to lie within the table's range.
- The filter in `detectPitch` (line 214) and in `getSamplePitch` (line 248)
  discards the literal `5512.5`, which is `sampleRate / 8`, the minimum-lag
  estimate, only at 44100 Hz (`SpuriousLiteralIsMinimumLag`). At other sample
  rates the minimum-lag estimate passes the filter.
- A constant frame is undetected exactly when its constant lies within 6 of
  128 (122..134). Only the all-128 frame has zero correlation at every lag
  (`SilenceIsUndetected`). A frame whose bytes all equal a constant at least 7
  away from 128 correlates most at lag 8, so it is estimated at
  `sampleRate / 8` (`ConstantFrameIsMinimumLag`). At
  44100 Hz the filter hides this. At 48000 Hz the estimate is 6000 Hz, which is
  shown and triggers playback (`ConstantFrameTriggersAt48kHz`).
- Because the first `prevFreq` is -1 (line 161), the first valid detection
  always triggers playback (`FirstDetectionTriggers`).
- The hysteresis test (line 221) compares each estimate with the previous
  tick's raw estimate, which line 237 hands on whatever it was. Any -1 in
  between therefore leads to a retrigger (`DropoutRetriggers`). A slow glide
  whose steps are each within 0.2% triggers only once, however far it drifts
  (`SustainedPitchTriggersOnce`).

## Model

| member | source | states |
|---|---|---|
| `Autocorrelation.NormalisedProduct` | js/main.js:278 | the product of two samples normalised by 128 is their centred integer product over 16384, so byte inputs give exact rationals |
| `Autocorrelation.LagCorrelation` | js/main.js:275-280 | the inner loop over 1024 products, divided by 1024 + tau, yields exactly `Corr(buffer, tau)`; every index read is below 1024 + tau |
| `Autocorrelation.FindFundamentalFreq` | js/main.js:269-299 | the lag scan with its early break returns exactly `Estimate(buffer, sampleRate)`; a frame of at least 2024 bytes keeps every read in bounds (the analyser frame has 2048) |
| `Autocorrelation.BestIsFirstMaximum` | js/main.js:271-288 | after lags 8..hi the running best is the maximum of the correlations seen (floored at 0), its lag is the smallest lag attaining it (strict `>` keeps the earlier lag), and no lag is kept iff no correlation is positive |
| `Autocorrelation.StopFromIsFirstStrong` | js/main.js:282-288 | from lag t the scan examines each lag up to the first with correlation above 0.9, and stops there |
| `Autocorrelation.LastLagIsFirstStrong` | js/main.js:274-288 | the last examined lag is in 8..1000; every earlier lag has correlation at most 0.9; if it is below 1000 its correlation exceeds 0.9, so later lags are never examined |
| `Autocorrelation.FirstStrongLagDecides` | js/main.js:282-293 | when lag t is the first with correlation above 0.9, the scan ends at t, keeps t, and the estimate is sampleRate / t, whatever the later lags hold |
| `Autocorrelation.EstimateRange` | js/main.js:291-298 | at a positive sample rate the result is -1 iff the best correlation is at most 0.0025; otherwise it is sampleRate / bestTau with 8 <= bestTau <= the last examined lag, so it lies in [sampleRate/1000, sampleRate/8] |
| `Autocorrelation.SilenceIsUndetected` | js/main.js:269-299 | a frame of all 128s has zero correlation at every lag and yields -1 |
| `Autocorrelation.ConstantCorr` | js/main.js:277-280 | in a frame whose bytes all equal c, the correlation at lag t is (c-128)² / (16·(1024 + t)) |
| `Autocorrelation.ConstantPeaksAtMinLag` | js/main.js:274-288 | in a constant frame no lag in 8..1000 correlates more than lag 8, whose correlation is (c-128)² / 16512 |
| `Autocorrelation.ConstantKeepsMinLag` | js/main.js:271-288 | in a constant frame other than 128 the scan keeps lag 8 with best correlation (c-128)² / 16512 |
| `Autocorrelation.ConstantFrameIsMinimumLag` | js/main.js:269-299 | a constant frame is estimated at sampleRate / 8 iff its constant is at least 7 away from 128, and at -1 otherwise |
| `Autocorrelation.SpuriousLiteralIsMinimumLag` | js/main.js:214 | at 44100 Hz the estimate equals the filtered literal 5512.5 iff a pitch is reported at the minimum lag 8 |
| `NoteTable.FindClosestNote` | js/main.js:302-321 | for a non-empty, strictly ascending table and a frequency within its range, the result is a table entry at least as near as every entry, and every higher entry is strictly farther (a tie goes to `notes[l]`, the higher one) |
| `NoteTable.ClosestIsUnique` | js/main.js:317-320 | in a strictly ascending table at most one entry satisfies that nearest-with-tie-rule property, so the lookup's result is determined |
| `NoteTable.ExactHitIsClosest` | js/main.js:308-314 | an entry whose frequency equals the query is the closest entry and the only one |
| `Playback.ChoosePlayer` | js/main.js:222-227 | a trigger uses the sample player iff a sample buffer exists and the calibrated pitch is positive, otherwise a tone |
| `Playback.PlaySample` | js/main.js:185-195 | `playSample` plays nothing iff the calibrated pitch is at most 0; otherwise it shifts the sample from its calibrated pitch to the requested one |
| `Playback.ChosenSampleIsPlayed` | js/main.js:186-189 | a tracker trigger routed to the sample player always gets past `playSample`'s guard |
| `Playback.HjonkPlaysWhenEnabled` | js/main.js:131-136 | the button plays the sample at its own pitch exactly when calibration enabled it |
| `PitchTracker.Step` | js/main.js:214-237 | -1 and 5512.5 show "---" and never trigger; any other estimate is shown and triggers iff it moved by more than 0.2% of the previous estimate, with the player chosen by `ChoosePlayer`; the next tick gets this tick's raw estimate |
| `PitchTracker.FirstDetectionTriggers` | js/main.js:221 | since the first `prevFreq` is -1 (line 161), the first valid detection always triggers |
| `PitchTracker.Track` | js/main.js:236-238 | a run of ticks produces one decision per estimate |
| `PitchTracker.TrackAt` | js/main.js:236-238 | tick i of a run decides its estimate against the raw estimate of tick i-1, or the initial `prevFreq` at tick 0 |
| `PitchTracker.SustainedPitchTriggersOnce` | js/main.js:221-228 | valid estimates, each within 0.2% of the one before, trigger on the first tick only |
| `PitchTracker.ChangingPitchAlwaysTriggers` | js/main.js:221-228 | valid estimates, each moving by more than 0.2% from the one before, trigger on every tick |
| `PitchTracker.DropoutRetriggers` | js/main.js:214-237 | a discarded tick shows "---" and never triggers; the next valid estimate after a -1 tick always triggers |
| `PitchTracker.RepeatedToneTriggersOnce` | js/main.js:221 | two ticks at 440 Hz: the first triggers, the second is suppressed |
| `PitchTracker.ConstantFrameTriggersAt48kHz` | js/main.js:214-227 | at 48000 Hz a constant frame at least 7 away from 128 is estimated at 6000 Hz, which passes the filter, is shown, and triggers on the first tick |
| `PitchTracker.DetectPitch` | js/main.js:208-239 | one tick on a frame: the decision is `Step` on the frame's estimate, the note label is "---" iff nothing is shown, and otherwise it is the closest table entry to the shown frequency |
| `Calibrator.Collected` | js/main.js:248-250 | the collected estimates are among the window's estimates, none is -1 or 5512.5, and there are no more of them than frames |
| `Calibrator.GetSamplePitch` | js/main.js:242-265 | the calibration loop returns `Calibration` of the window's frame estimates: the mean of the collected ones, or -1 |
| `Calibrator.CollectedEmptyIff` | js/main.js:248-254 | nothing is collected iff every estimate of the window is -1 or 5512.5 |
| `Calibrator.SumBounds` | js/main.js:255 | the sum of n values in [lo, hi] lies in [n·lo, n·hi] |
| `Calibrator.MeanBounds` | js/main.js:255 | the mean of the collected values lies in any interval that holds them all, so it lies between their minimum and maximum |
| `Calibrator.CalibrationOutcome` | js/main.js:248-264 | at a positive sample rate calibration returns -1 iff no frame gave a kept estimate; otherwise the result is the mean and lies in [sampleRate/1000, sampleRate/8], so it is positive and the button (line 131) is enabled |
| `Calibrator.ThreeEstimatesAverage` | js/main.js:254-256 | estimates 440, 442 and 438 calibrate to 440 |
| `Calibrator.OnlyDiscardedEstimatesFail` | js/main.js:262-264 | a window of only -1 and 5512.5 estimates calibrates to -1 |
| `Truncation.TruncateToOneSecond` | js/main.js:105-119 | a fresh buffer with the same channel count and min(sampleRate, length) frames per channel, holding each channel's prefix |

## Left out

- Web Audio and Tone.js objects (audio contexts, analysers, `GrainPlayer`, `Oscillator`, `Sampler`, `playTone`) are foreign calls with side effects only. A frame is given as a byte sequence, and a played sound is given as a `Trigger` or a `SampleOutcome`.
- File upload, `decodeAudioData`, loading `notes.json`, and the jQuery button and label updates are I/O and UI. The note table is a parameter, with its ordering as a precondition. The key-click handler (lines 47-57) is UI glue and is not modelled.
- The `requestAnimationFrame` loop never ends. The model covers one tick (`Step`, `DetectPitch`) and finite runs of ticks (`Track`).
- The `currentTime` clock in `getSamplePitch` is replaced by the finite sequence of frames delivered during the one-second window. The source always analyses at least one frame. The model also accepts an empty window, which yields -1.
- Play, pause and stop (`suspend`/`resume` promises, `isStopped`) are asynchronous host state.
- `findCentsBetween` needs a logarithm, which Dafny does not have, so the detune is left out. `PlaySample` records the two frequencies it is computed from.
- IEEE-754 rounding is not modelled. Correlations, sums and means are exact rationals, while the source computes them with JavaScript doubles.
- Sine-wave accuracy (a pure tone of frequency f is estimated within a few percent of f) is not modelled. It is a numerical property of sampled trigonometric signals.
- The commented-out mode aggregation is dead code.
- Autocorrelation.FindFundamentalFreq: requires a frame of at least 2024 bytes. With a shorter buffer the source reads `undefined` and computes with `NaN`. That case is not modelled.
- PitchTracker.DetectPitch: requires a positive sample rate and a note table spanning [sampleRate/1000, sampleRate/8]. These conditions keep `findClosestNote` in bounds for every estimate. The source assumes them silently.
- Truncation.TruncateToOneSecond: takes the sample rate as a whole number of frames per second, and the channel data as read-only sequences.
- PitchTracker.Track: the sample state (`sampleLoaded`, `sampleFreq`) is fixed for a whole run. The source rereads the globals `sampleBuffer` and `sampleFreq` on every tick (line 222), so an upload during playback changes the player from that tick on. A single `Step` or `DetectPitch` takes the state of its own tick.
