# VocalScan voice analysis, modelled in Dafny

VocalScan is a browser app that coaches a speaker through a short voice
exercise. It listens to the microphone and shows, frame by frame, the
loudness, the fundamental pitch and the first two formants. It draws a
scrolling spectrogram and collects the usable frames of a session. At the
end it sends their averages for an AI assessment. Spoken instructions use
a Portuguese voice.

This project models the computational core of the app and proves
properties of it:

- `loudness.dfy`: `AudioAnalyzer.getVolume`, the RMS of the byte samples
  in dB, with a floor of -100 dB.
- `pitch.dfy`: `AudioAnalyzer.getPitch`.
  - A silence gate.
  - A scan over lags of an average-magnitude-difference "correlation".
    The scan locks on the first run of climbing correlations above 0.9.
  - A three-point refinement of the last lag of that run.
- `formants.dfy`: `AudioAnalyzer.getFormants`.
  - An 11-bin moving-average envelope.
  - Its strict local maxima above 30.
  - The first of them in the F1 band (250, 900) Hz and in the F2 band
    (950, 2500) Hz.
- `app.dfy`: the session logic of `App`.
  - The per-frame gate, pitch > 50 Hz and volume > -40 dB, applied only
    while recording.
  - The collected pitch/F1/F2 lists, modelled as a class.
  - The reset at the start of a session.
  - `calculateAverage` and the session summary.
- `spectrogram.dfy`: one step of the `Spectrogram` effect.
  - The guards.
  - The scroll.
  - The new column: the row-to-bin mapping and the heat-map colours. The
    canvas is modelled as the list of drawing calls made on it.
- `tts.dfy`: `getFemalePtVoice`, the utterance built by `speakInstructions`
  and the rate/pitch defaults applied by `speakSequence`.
- `common.dfy`: bytes, `Option`, the `x || d` defaulting, the sample-rate
  fallback, and the laws
  assumed of `Math.sqrt` and `Math.log10`.

Numbers are exact reals. JavaScript doubles and the `Float32Array`
buffers round; the model does not (see "Left out"). `Math.sqrt` and
`Math.log10` are function parameters. `IsSqrt` says the parameter is the
non-negative square root. `IsLog10` says it is monotone with
log10(1) = 0. The analyser's buffers, the audio context's sample rate and
the FFT size are parameters of the operations.

The fallback `sampleRate / bestOffset` is guarded by
`bestCorrelation > 0.01` (services/audioAnalyzer.ts:115). But
`bestCorrelation` is either 0 or a correlation above 0.9
(services/audioAnalyzer.ts:102-107). So the fallback is reached exactly
when the accepted run is still climbing at the last lag.
`PitchDetection.Scan` and `PitchDetection.ScanClimbsToLastLag` model
that.

### Where the code and its comments differ

The model follows the code:

- The formant bands are the ones in the code, (250, 900) and
  (950, 2500) Hz. The comment at services/audioAnalyzer.ts:155 gives wider
  bands.
- The peak search starts at bin 5 inclusive, as the loop does, although
  the comment at services/audioAnalyzer.ts:148 says "> 5".

### Reference definitions

The loops are proved equal to these functions, and the lemmas in the
table are stated about them:

- `Loudness.Decibels` and `Loudness.Volume`
  (services/audioAnalyzer.ts:62-65): the floored decibel value of the RMS,
  with a zero RMS at the floor.
- `PitchDetection.Correlation` and `PitchDetection.Correlations`
  (services/audioAnalyzer.ts:93-99): one minus the mean absolute
  difference of the buffer and its shift, for each lag.
- `PitchDetection.Refined` and `PitchDetection.Interpolated`
  (services/audioAnalyzer.ts:109-110): sampleRate over the lag moved by 8
  times the normalized slope. A moved lag of 0 gives `Infinity`.
- `PitchDetection.ScanResult` (services/audioAnalyzer.ts:102-119): the
  scan stated through `FirstAccepted` and `RunEnd`.
- `PitchDetection.PitchOf` (services/audioAnalyzer.ts:83-119): the
  silence gate, then `ScanResult`.
- `FormantDetection.Envelope` (services/audioAnalyzer.ts:134-144): the
  envelope at every bin.
- `FormantDetection.EnvelopePeaks` and `FormantDetection.Frequencies`
  (services/audioAnalyzer.ts:147-153): the peak bins and their frequency
  in Hz.
- `FormantDetection.BandFormant` (services/audioAnalyzer.ts:156-157):
  `find(...) || 0` on one band.
- `FormantDetection.FormantsOf` (services/audioAnalyzer.ts:128,
  155-159): both formants at the bin size sampleRate / fftSize.
- `App.FrameAccepted` (App.tsx:40): the per-frame gate.
- `App.Sum` (App.tsx:131): the left-fold sum.
- `Spectrogram.ScrollOps` (components/Spectrogram.tsx:37-44): copy,
  clear to the background, draw back 2 pixels to the left.
- `Spectrogram.RowOps` (components/Spectrogram.tsx:53-81): the fill, if
  any, for one row.
- `TtsService.Select` and `TtsService.FemalePtVoice`
  (services/ttsService.ts:9-18): the `||` chain over the rules, on the
  Portuguese voices.
- `PitchDetection.SumOfSquares` (services/audioAnalyzer.ts:83-86): the
  sum of the squared samples.
- `PitchDetection.IsSilent` (services/audioAnalyzer.ts:87-89): the
  silence gate, mean square below 0.0001. An empty buffer is not silent,
  since its RMS is NaN.
- `PitchDetection.PreviousCorrelation` and `PitchDetection.Accepts`
  (services/audioAnalyzer.ts:91, 102, 112): `lastCorrelation` when a lag
  is examined, 1 before the first lag; a lag is accepted when its
  correlation is above 0.9 and above that value.
- `FormantDetection.IsPeak` (services/audioAnalyzer.ts:150): a strict
  local maximum above 30.
- `FormantDetection.InBand` (services/audioAnalyzer.ts:156-157): strictly
  inside the band.
- `TtsService.Contains` (services/ttsService.ts:10, 12-16): `includes`.
- `TtsService.IsPt` (services/ttsService.ts:10): the lang contains "pt".
- `TtsService.Matches` and `TtsService.Rules`
  (services/ttsService.ts:12-16): the five name tests in priority order.
- `TtsService.Find` (services/ttsService.ts:12-16): `find`.
- `TtsService.FirstPtMatch`: an independent reference for one step of the
  chain. It gives the first voice, in the browser's order, that is
  Portuguese and matches the rule, without filtering first.
  `FemalePtVoicePriority` compares against it.
- `Spectrogram.IsPainted` and `Spectrogram.RowColour`
  (components/Spectrogram.tsx:53-59, 65-80): a row is painted when its
  bin exists and is above 10, in the heat colour of that bin.
- `App.MetricCollector.Valid` (App.tsx:26-44): the collection invariant.
  Stored pitches are above 50 Hz and stored formants positive, and
  neither formant list is longer than the pitch list.

## Model

| member | source | states |
|---|---|---|
| Common.SampleRate | services/audioAnalyzer.ts:74 | a non-zero context rate is kept; a missing context or a rate of 0 gives 44100; the rate is never 0 |
| Loudness.Normalized | services/audioAnalyzer.ts:59 | a byte sample centred at 128 and scaled by 1/128 lies in [-1, 127/128] |
| Loudness.NormalizedEnergy | services/audioAnalyzer.ts:57-61 | the sum of the squared normalized samples lies between 0 and the number of samples |
| Loudness.MeanSquareAtMostOne | services/audioAnalyzer.ts:62 | the mean square of a non-empty buffer lies in [0, 1] |
| Loudness.VolumeInRange | services/audioAnalyzer.ts:53-66 | every volume, for every buffer, lies in [-100, 0] dB |
| Loudness.VolumeMonotone | services/audioAnalyzer.ts:62-65 | a buffer with no larger mean square is never louder |
| Loudness.GetVolume | services/audioAnalyzer.ts:53-66 | the loop computes the volume of the buffer; an empty buffer (no analyser) gives -100; the result lies in [-100, 0] |
| PitchDetection.SilenceGateAsSquares | services/audioAnalyzer.ts:83-89 | the gate "mean square < 0.0001" used by the model is the source's gate "sqrt(mean square) < 0.01" |
| PitchDetection.AbsDiffSum | services/audioAnalyzer.ts:95-97 | the absolute-difference sum at a lag is non-negative |
| PitchDetection.LagZeroIsPerfect | services/audioAnalyzer.ts:92-100 | the correlation at lag 0 is exactly 1 |
| PitchDetection.CorrelationsAtMostOne | services/audioAnalyzer.ts:99 | no correlation exceeds 1 |
| PitchDetection.EarlyLagsNeverAccepted | services/audioAnalyzer.ts:91-102 | lags 0 and 1 are never accepted: lag 0 equals, and cannot climb above, the initial lastCorrelation of 1 |
| PitchDetection.FirstAccepted | services/audioAnalyzer.ts:102-107 | the result is the first lag at or after `from` whose correlation is above 0.9 and above its predecessor's; no earlier lag qualifies |
| PitchDetection.RunEnd | services/audioAnalyzer.ts:102-111 | the result is the first lag that breaks the run; every lag before it is accepted, so the accepted lags the scan sees form one contiguous run |
| PitchDetection.ScanStep | services/audioAnalyzer.ts:102-108 | examining one lag moves the start and the end of the run as the loop's flags do |
| PitchDetection.InterpolationFramesPeak | services/audioAnalyzer.ts:108-110 | when the run ends inside the profile, its last lag is at least 2 and its correlation, the interpolation divisor, is above 0.9; it is a strict climb from its predecessor and no lower than its successor |
| PitchDetection.NonZeroScanNeedsAcceptedLag | services/audioAnalyzer.ts:102-119 | a non-zero scan result needs an accepted lag, at least 2; the fallback is taken only when the last lag is still accepted |
| PitchDetection.ScanFindsNothing | services/audioAnalyzer.ts:115-119 | with no accepted lag the scan gives 0 |
| PitchDetection.ScanClimbsToLastLag | services/audioAnalyzer.ts:115-116 | a run that reaches the last lag gives sampleRate / (size - 1), and then size >= 2 |
| PitchDetection.ScanStopsAtDrop | services/audioAnalyzer.ts:108-110 | a run that ends at lag `end` gives the refinement of lag end - 1, with end >= 2 and divisor above 0.9 |
| PitchDetection.SquareSum | services/audioAnalyzer.ts:83-86 | the first loop computes the sum of squares of the buffer |
| PitchDetection.LagCorrelation | services/audioAnalyzer.ts:93-100 | the inner loop computes the correlation of the buffer at the given lag |
| PitchDetection.Scan | services/audioAnalyzer.ts:91-119 | the lag loop, with its flags, best lag and correlations array, returns the scan result of the buffer's correlation profile; the refinement reads only correlations already written |
| PitchDetection.GetPitch | services/audioAnalyzer.ts:68-120 | no analyser gives 0; otherwise the result is the pitch of the buffer at the context's sample rate: 0 when silent, else the scan result |
| FormantDetection.RangeSum | services/audioAnalyzer.ts:137-142 | a sum of `n` spectrum bytes lies in [0, 255 n] |
| FormantDetection.WindowStart | services/audioAnalyzer.ts:137-138 | the window reaches at most 5 bins below i and is clipped at 0 |
| FormantDetection.WindowEnd | services/audioAnalyzer.ts:137-138 | the window reaches at most 5 bins above i and is clipped at the spectrum's end; it always holds bin i |
| FormantDetection.EnvelopeAt | services/audioAnalyzer.ts:134-143 | the envelope at i is the mean over the edge-clipped window, whose count is at least 1, so it lies in [0, 255] |
| FormantDetection.PeakBins | services/audioAnalyzer.ts:149-153 | a bin is collected exactly when it is in 5 .. hi - 1 and a strict local maximum above 30; bins ascend |
| FormantDetection.FirstInBand | services/audioAnalyzer.ts:156-157 | `find`: the first element inside the open band, or none; no earlier element is inside |
| FormantDetection.PeaksAreLocalMaxima | services/audioAnalyzer.ts:149-153 | peaks lie at bins 5 .. length - 2, exceed both neighbours and 30, and come in ascending order |
| FormantDetection.FrequenciesAscend | services/audioAnalyzer.ts:151 | with a positive bin width, peak frequencies ascend with their bins |
| FormantDetection.BandFormantIsLowestInBand | services/audioAnalyzer.ts:156-157 | `find(...) \|\| 0` is 0 exactly when no element is in the band; otherwise it is an element in the band and, for ascending input, the lowest such |
| FormantDetection.FormantsAreLowestPeaksInBand | services/audioAnalyzer.ts:155-159 | F1 is 0 or the lowest peak frequency in (250, 900) Hz, F2 is 0 or the lowest in (950, 2500) Hz; each is 0 exactly when its band has no peak |
| FormantDetection.Smooth | services/audioAnalyzer.ts:131-144 | the smoothing loops fill a fresh array with the envelope of the spectrum, which is only read |
| FormantDetection.CollectPeaks | services/audioAnalyzer.ts:147-153 | the peak loop collects the frequency of every envelope peak, in bin order |
| FormantDetection.GetFormants | services/audioAnalyzer.ts:123-160 | no analyser or data array gives (0, 0); otherwise the formants of the spectrum at the context's rate and the analyser's FFT size |
| App.SumBetween | App.tsx:131 | a sum of n values in [lo, hi] lies in [n lo, n hi] |
| App.SumAbove | App.tsx:131 | a sum of n > 0 values above b exceeds n b |
| App.MeanBetween | App.tsx:129-132 | the mean of values in [lo, hi] lies in [lo, hi] |
| App.Average | App.tsx:129-132 | the average of an empty list is 0; otherwise it lies between the smallest and the largest element |
| App.AverageAbove | App.tsx:129-132 | the average of a non-empty list whose values all exceed b exceeds b |
| App.MetricCollector.constructor | App.tsx:26-30 | the collection starts empty and valid |
| App.MetricCollector.Reset | App.tsx:75 | a new session empties all three lists |
| App.MetricCollector.UpdateMetrics | App.tsx:32-44 | outside RECORDING nothing changes; a frame with pitch > 50 and volume > -40 appends its pitch, and its F1 and F2 each when positive; the invariant holds: stored pitches > 50, stored formants > 0, no more formants than pitches |
| App.MetricCollector.Summary | App.tsx:136-139 | each average is 0 exactly when its list is empty; otherwise the pitch average is above 50 Hz, the formant averages are positive, and each lies within its list's range |
| Spectrogram.FreqIndex | components/Spectrogram.tsx:53 | the row's bin is at most floor(binCount / 1.5), hence below binCount for a non-empty spectrum, so the guard at line 55 always holds |
| Spectrogram.ScaledRowBound | components/Spectrogram.tsx:53 | floor((h - i) m / 3h) lies in [0, floor(m / 3)] for every row i |
| Spectrogram.FreqIndexNonIncreasing | components/Spectrogram.tsx:51-53 | lower rows read no higher bins |
| Spectrogram.HeatColour | components/Spectrogram.tsx:65-77 | bands 11-59 dark blue (b in 22..118), 60-119 cyan to green (g in 0..236, b in 137..255), 120-179 yellow (r in 0..236, g = 255), 180 and above red to white (r = 255, g + b = 255, g in -45..255, b in 0..300) |
| Spectrogram.HeatColourInRange | components/Spectrogram.tsx:65-79 | all three channels are 0..255 exactly when the amplitude is at most 243 |
| Spectrogram.HeatColourMonotone | components/Spectrogram.tsx:65-77 | within each band the varying channels move monotonically with the amplitude |
| Spectrogram.ColumnOps | components/Spectrogram.tsx:51-83 | the new column makes no more fills than rows |
| Spectrogram.ColumnFillsPaintedRows | components/Spectrogram.tsx:51-83 | every fill is 2 x 1 at x = width - 2, on a row whose bin is above 10, in that row's heat colour; rows strictly ascend |
| Spectrogram.ColumnCoversPaintedRows | components/Spectrogram.tsx:51-81 | every row whose bin is above 10 is filled |
| Spectrogram.Draw | components/Spectrogram.tsx:19-83 | nothing is drawn when a canvas or context is missing, when inactive or when the spectrum is empty; otherwise the scroll and then the column's fills |
| TtsService.LowerChar | services/ttsService.ts:16 | ASCII capitals become lower case; every other character is kept |
| TtsService.ToLower | services/ttsService.ts:16 | after lower-casing no ASCII capital remains, every other character is kept in place, and the length is unchanged |
| TtsService.ToLowerIdempotent | services/ttsService.ts:16 | lower-casing an already lower-cased name changes nothing |
| TtsService.PtVoices | services/ttsService.ts:10 | a voice is kept exactly when it is offered and its lang contains "pt" |
| TtsService.FirstMatch | services/ttsService.ts:12-16 | the index of the first voice matching a rule; no earlier voice matches |
| TtsService.FindOnPtIsFirstPtMatch | services/ttsService.ts:10-16 | filtering then `find` gives the first Portuguese matching voice in the browser's order |
| TtsService.SelectFromList | services/ttsService.ts:12-17 | the `\|\|` chain yields nothing only for an empty list, and otherwise one of its voices |
| TtsService.SelectByFirstFindingRule | services/ttsService.ts:12-17 | the first rule that finds a voice decides |
| TtsService.SelectFallsBackToFirst | services/ttsService.ts:17 | when no rule finds a voice, the first voice, if any, is chosen |
| TtsService.FemalePtVoiceIsPt | services/ttsService.ts:9-18 | no voice is chosen exactly when no offered voice is Portuguese; a chosen voice is offered and Portuguese |
| TtsService.FemalePtVoicePriority | services/ttsService.ts:9-18 | the choice is the first Portuguese voice matching the first of "Google Português", "Luciana", "Joana", "Maria", case-insensitive "female" that any Portuguese voice matches |
| TtsService.FemalePtVoiceFallback | services/ttsService.ts:9-18 | when no Portuguese voice matches any of them, the first Portuguese voice is chosen |
| Common.OrDefault | services/ttsService.ts:75-76 | `x \|\| d` on an absent or zero value gives the default d and keeps any other value; with a non-zero default the result is never 0 |
| TtsService.MakeUtterance | services/ttsService.ts:32-42 | the utterance carries the chosen voice, which is Portuguese when present |
| TtsService.SpeakSequence | services/ttsService.ts:57-81 | without speech synthesis nothing is spoken; otherwise one utterance per segment in order, each with the voice chosen from the list offered when it is spoken, rate defaulting to 0.9 and pitch to 1.0, never 0 |

## Left out

- Web Audio plumbing is not modelled: `start`, `stop`, the analyser
  setup, `getFrequencyData` and `getTimeDomainData`. The buffers they fill
  are parameters.
- `getFormants` refreshes the shared `dataArray` in place through
  `getFrequencyData`. The model takes the refreshed spectrum as a
  parameter.
- Floating point is not modelled. Sums, means, the `Float32Array`
  envelope and correlations, and `Math.floor` in the spectrogram row
  mapping are exact rationals or integers.
- NaN and Infinity buffer samples are not modelled.
- `Math.sqrt` and `Math.log10` are parameters constrained by `IsSqrt` and
  `IsLog10`. Their values are otherwise unknown, so no numeric decibel or
  pitch values are claimed.
- PitchDetection.GetPitch: an interpolated lag of exactly 0 gives the
  `Infinity` pitch, as JavaScript does. A negative interpolated lag gives
  a negative pitch, as in the source.
- App.MetricCollector.UpdateMetrics: takes a finite pitch. An `Infinity`
  pitch would pass the > 50 gate in JavaScript and make the average
  infinite; the model does not carry it into the collection.
- FormantDetection.GetFormants: requires a positive FFT size. The Web
  Audio API guarantees a power of two from 32 to 32768.
- Spectrogram.Draw: the pixels that the scroll, the background fill and
  the CSS clamping of out-of-range `rgb()` channels produce are not
  modelled. The model records the calls, not their effect on the pixels.
- The resizing of the scratch canvas is not modelled.
- TtsService.LowerChar: lower-cases ASCII letters only. JavaScript's
  `toLowerCase` maps every Unicode letter. No non-ASCII letter lower-cases
  to a letter of "female".
- Speech-synthesis timing is not modelled: the cancel, the 50 ms and
  100 ms pauses, the completion promises, the `onSegmentStart` callback
  and the voices-loading call at import.
- React state, rendering and the animation-frame loop are not modelled,
  nor is `MediaRecorder`.
- The Gemini request (`geminiService.ts`) is not part of this model.
- The build configuration (`vite.config.ts`) is not part of this model.
