# A verified model of the music-tch-synth core

`synth.py` is a small real-time polyphonic synthesizer. Thirty keyboard keys
are mapped to notes: three rows of ten scale steps from C4 (261.63 Hz) to
E5 (659.25 Hz), with one row each for sine, square and triangle voices. The
main loop repeats these steps on every pass:

1. Computes `max_length` from the lowest held frequency.
2. Advances two pitch effects on the global frequency multiplier:
   - a ramp that rises 1 % per cycle and falls back once it is more than 2
     above its baseline;
   - a wobble that moves 1 % per cycle and reverses outside [1/1.05, 1.05].
3. Generates one buffer per held note with `generate_wave`, covering five
   periods and padded with silence up to `max_length`.
4. Mixes the buffers with `mix_waves`, an element-wise sum divided by its
   peak when the peak exceeds 1.
5. Writes the result to the audio stream.
6. Drains the pending pygame events:
   - note keys record or release voices;
   - the arrow keys change volume and pitch;
   - `1`/`2` toggle the effects and `0` resets the pitch;
   - QUIT ends the loop.

The model has six modules:

- `Numeric`: `abs`, `min`, `max`, `np.sign` and `np.zeros` over reals.
- `Notes`: the note table, its shapes as a closed datatype, and the key codes.
- `Waveform`: `generate_wave`. The sine is the parameter `osc`, which stands
  for x ↦ sin(2πx). Lengths, the `linspace` time grid, padding, and the
  square and triangle formulas are modelled exactly.
- `Mixer`: `mix_waves`, including the silent buffer for an empty list.
- `Controls`: the loop's globals as a value, `ControlState`, with two
  specification functions:
  - `Step`, one event of the drain (with `Steps` for a whole drain);
  - `Advance`, one cycle of ramp then wobble.
- `Synth`: the class `SynthState`, which holds those globals as fields.
  Each method is proved against a specification:
  - handling events follows `Step` and `Steps`;
  - the effects step follows `Advance`;
  - the `max_length` scan returns the cycle length of a lowest held note
    (`IsLowest`, `CycleLength`);
  - generating and mixing the held voices returns `MixWaves` of `Voices`,
    the `generate_wave` buffers of any listing of the held keys;
  - one full pass of the loop (`Iteration`) combines all of these.

The model uses real arithmetic for Python floats. Python's `int(x)` of a
non-negative float is modelled as `x.Floor`.

Points where the code's behaviour is easy to misread, and what the model
does there:

- **Time grid.** Sample times are `np.linspace(0, duration, n, endpoint=False)`,
  that is `i * duration / n`, not `i / 44100`.
- **Silence length.** The silent buffer has `int(44100 / 261.63)` = 168
  samples. The code truncates, so it is not the rounded 169.
- **Pitch reset and the ramp baseline.** Key `0` resets only the
  multiplier. The ramp baseline `global_effects_freq_adjustment` is set
  once, at start-up, and never changes.
- **Note presses.** Pressing a held note assigns the table entry again
  rather than skipping it. The resulting state is the same (`NoteOnIdempotent`).
- **Ragged voices.** Nothing truncates voices of unequal length. When the
  multiplier is below 1, `generate_wave` can return a voice longer than
  `max_length`. Two held notes of different frequencies can then have
  different lengths, and `np.sum` cannot stack them.
  `PitchDownChordIsRagged` exhibits such a state. The model makes the
  aligned case a precondition of rendering (`Synth.Aligned`).
- **Wobble bounds.** The wobble does not always bring the multiplier back
  into [1/1.05, 1.05]. Suppose even one step up (×1.01) leaves the
  multiplier below 1/1.05. Then it reverses on every cycle, and every two
  cycles multiply it by 1.01 × 0.99 < 1, so it drifts further down
  (`WobbleTrappedBelowBand`). Two presses of the left arrow, then `2`,
  reach such a state (`TwoPitchDownsTrapWobble`).

## Model

| member | source | states |
|---|---|---|
| Notes.MinTableFreqIsMinimum | synth.py:10-41 | 261.63 Hz is positive, no table note is lower, and some table note has exactly that frequency |
| Waveform.GenerateWave | synth.py:72-94 | the buffer is as long as the natural five-period buffer or `max_length`, whichever is larger: it is padded, never truncated |
| Waveform.GenerateWavePadsRight | synth.py:90-94 | the natural samples come first and unchanged; every sample after them is 0 |
| Waveform.TimeGridHalfOpen | synth.py:76 | every grid time lies in [0, duration) and the first is 0 |
| Waveform.PhaseSpansFivePeriods | synth.py:74-76 | sample i sits at phase 5·i/n periods, in [0, 5), whatever the frequency |
| Waveform.TriangleSampleRange | synth.py:82-88 | for amplitude A ≥ 0 a triangle sample lies in [-1, 2A - 1] |
| Waveform.TriangleWaveRange | synth.py:82-88 | every natural sample of a triangle voice lies in [-1, 2A - 1] |
| Waveform.SilentTriangleIsMinusOne | synth.py:82-88 | at amplitude 0 every triangle sample is -1, not silence |
| Waveform.SquareSampleLevels | synth.py:80-81 | a square sample is -A, 0 or A; it is 0 at a zero of the sine and, for A ≠ 0, only there |
| Waveform.VoiceSamplesBounded | synth.py:72-94 | with amplitude in [0, 1] and a sine bounded by 1, every sample of every shape, padding included, lies in [-1, 1] |
| Waveform.SampleBounded | synth.py:78-88 | with amplitude in [0, 1] and a sine bounded by 1, a sample of any shape lies in [-1, 1] |
| Waveform.NaturalLengthAntitone | synth.py:73-76 | a higher adjusted frequency never gives a longer buffer |
| Mixer.MixWaves | synth.py:98-108 | the mix has the common length of its inputs, or the silence length when there are none |
| Mixer.PeakBounds | synth.py:101 | the peak bounds the magnitude of every sample |
| Mixer.PeakAttained | synth.py:101 | the peak of a non-empty buffer is the magnitude of one of its samples |
| Mixer.PeakUnique | synth.py:101 | a bound on every magnitude that one sample reaches is the peak |
| Mixer.MixSilence | synth.py:106-108 | with no voices the mix is 168 zeros |
| Mixer.MixClipSafe | synth.py:99-105 | every mixed sample lies in [-1, 1] |
| Mixer.DivideByPeak | synth.py:103-104 | a sample divided by a peak that bounds it has magnitude at most 1, exactly 1 when it attains the peak |
| Mixer.MixQuietIsSum | synth.py:100-105 | a sum whose peak is at most 1 is returned as is, not boosted |
| Mixer.MixLoudIsScaledSum | synth.py:100-104 | a sum whose peak exceeds 1 has every sample divided by that same peak |
| Mixer.MixPeak | synth.py:100-105 | the mix peaks at the smaller of the sum's peak and 1 |
| Mixer.MixSingleVoice | synth.py:99-105 | one voice within [-1, 1] passes through unchanged |
| Mixer.ColumnSumRemove | synth.py:100 | taking buffer j out of the list takes its sample out of every column sum |
| Mixer.ColumnSumPermutation | synth.py:100 | the column sums do not depend on the order of the buffers |
| Mixer.MixOrderIndependent | synth.py:98-105 | a permutation of a mixable list is mixable and mixes to the same buffer |
| Controls.ControlKey | synth.py:164-180 | a control key never touches the held notes, the wobble direction or `running`, keeps the volume in [0, 1] and keeps the multiplier positive |
| Controls.InitialIsValid | synth.py:43-45 | the start state satisfies the invariant, holds no notes and is running |
| Controls.StepPreservesInv | synth.py:158-184 | every event keeps the held notes a sub-map of the table, the volume in [0, 1], the multiplier positive and the direction ±1 |
| Controls.SubMapInsert | synth.py:162-163 | recording a table entry keeps the registry a sub-map of the table with positive frequencies |
| Controls.StepsPreserveInv | synth.py:158-184 | a whole drain keeps the invariant |
| Controls.NoteOnRecordsTableEntry | synth.py:161-163 | a note press adds exactly that key with the table's definition and changes nothing else |
| Controls.NoteOnIdempotent | synth.py:162-163 | pressing a held note again changes nothing |
| Controls.NoteOffRemoves | synth.py:182-184 | a release removes exactly that key and nothing else; releasing an absent key is a no-op |
| Controls.NoteOnOffRestores | synth.py:161-184 | pressing then releasing a note that was not held restores the state |
| Controls.VolumeKeysClamp | synth.py:164-167 | up and down move the volume by 0.1, clamped to [0, 1], monotonically |
| Controls.FiveVolumeUpsReachOne | synth.py:164-165 | five ups from 0.5 give exactly 1.0, and a sixth stays at 1.0 |
| Controls.PitchKeys | synth.py:168-180 | right multiplies by 1.05, left undoes it (and vice versa), `0` sets the multiplier to 1.0, the ramp baseline |
| Controls.ToggleKeys | synth.py:172-177 | `1` and `2` flip only their own effect and are their own inverses |
| Controls.QuitFinishesDrain | synth.py:158-160 | QUIT only clears `running`; the rest of the drain still applies |
| Controls.StoppedDrain | synth.py:158-160 | no drain depends on `running` |
| Controls.StoppedStep | synth.py:158-184 | no single event depends on `running` |
| Controls.RampBound | synth.py:133-138 | the ramped multiplier is positive, at most 2 above the baseline, and either 1.01 times the old one or the baseline |
| Controls.RampStaysBounded | synth.py:133-138 | with only the ramp on, a multiplier in (0, 3] stays there for any number of cycles |
| Controls.WobbleStepSpec | synth.py:141-147 | the wobble multiplies by 1 ± 0.01 and reverses the direction exactly when the result leaves [1/1.05, 1.05] |
| Controls.AdvancePreservesInv | synth.py:133-147 | one effects cycle keeps the invariant, changes only the multiplier and direction, and changes nothing when both effects are off |
| Controls.WobbleTrappedBelowBand | synth.py:141-147 | once one step up still stays below the band, every two cycles lower the multiplier and it never returns |
| Controls.TwoPitchDownsTrapWobble | synth.py:141-177 | two left-arrow presses, then `2`, put the multiplier at 1/1.05² with the wobble on and rising: inside that trap |
| Synth.CycleLength | synth.py:124-128 | `max_length` is at least 1 and at least the lowest note's natural length |
| Synth.Voice | synth.py:150-152 | a held note's buffer has the length `generate_wave` gives its adjusted frequency |
| Synth.SynthState.constructor | synth.py:111-120 | the object starts in the script's initial state |
| Synth.SynthState.HandleEvent | synth.py:158-184 | the new state is `Step` of the old one, and the invariant holds |
| Synth.SynthState.HandleEvents | synth.py:158-184 | the new state is `Steps` of the old one over all the events in order |
| Synth.SynthState.AdvanceEffects | synth.py:133-147 | the new state is `Advance` of the old one (ramp, then wobble) |
| Synth.SynthState.MaxLength | synth.py:124-128 | 0 exactly when no note is held, else the cycle length of a lowest held note |
| Synth.SynthState.StartCycle | synth.py:122-147 | `max_length` from the notes held before the effects, then the state is `Advance` of the old one |
| Synth.SynthState.GenerateVoices | synth.py:150-153 | one buffer per held note, each key exactly once, each `generate_wave` of its note |
| Synth.SynthState.RenderVoices | synth.py:149-154 | no output exactly when `max_length` ≤ 0 or no note is held; otherwise the mix of every held voice, at least `max_length` long and within [-1, 1], and the same mix for any listing of the held keys |
| Synth.SynthState.Iteration | synth.py:122-186 | one loop pass: output exactly when notes were held, the mix of those voices (in any listing) at the advanced multiplier, clip-safe; then the state is the drain applied to the advanced state |
| Synth.DistinctCount | synth.py:150-153 | a listing of dictionary keys holds each key at most once |
| Synth.ListingsPermute | synth.py:150-153 | two listings of the held keys are permutations of each other |
| Synth.VoicesConcat | synth.py:150-153 | the voices of two joined listings are the two lists of voices joined |
| Synth.VoicesRemove | synth.py:150-153 | taking one key out of a listing takes exactly its voice out of the voices |
| Synth.VoicesPermutation | synth.py:150-153 | permuting the listed keys permutes their voices |
| Synth.MixIgnoresListing | synth.py:150-154 | any two listings of the held keys give mixable voices that mix to the same buffer |
| Synth.MixOfAnyListing | synth.py:150-154 | a mix of one listing of the held keys is the mix of every listing |
| Synth.VoiceLength | synth.py:150-153 | voice i has its own note's `generate_wave` length, at least `max_length` |
| Synth.AlignedVoicesMixable | synth.py:149-154 | when the held voices line up, their buffers can be summed and each is at least `max_length` long |
| Synth.AlignedWhenNotLowered | synth.py:124-153 | with a multiplier of at least 1 every voice is padded to exactly `max_length`, so the voices line up |
| Synth.LowestIsUnique | synth.py:126-128 | keys tied for the lowest frequency give the same `max_length`, whatever the scan order |
| Synth.MiddleCCycleLength | synth.py:126-128 | middle C alone gives `max_length` 842 |
| Synth.PitchDownChordIsRagged | synth.py:124-154 | after left arrow, `a`, `s` the voices are 884 and 842 samples long: not aligned, so the sum is undefined |
| Synth.PitchDownChordState | synth.py:161-171 | left arrow, `a`, `s` from the start hold C4 and D4 at multiplier 1/1.05 |
| Synth.LoweredChordLengths | synth.py:73-94 | at multiplier 1/1.05, C4's buffer is 884 samples and D4's is padded to 842 |

## Left out

- The pygame window, `draw_waveform` and `display.flip` are left out. They only draw.
- The `sounddevice` stream is left out: opening it, `write`, the float32 cast, stop and close are I/O. `Iteration` returns the buffer it would write.
- The values of `np.sin` are not modelled. The sine is the parameter `osc`. `VoiceSamplesBounded` assumes `osc` is bounded by 1.
- Floating-point rounding is not modelled; arithmetic is exact over reals.
- Controls.FiveVolumeUpsReachOne: states the real-number result 1.0. In IEEE doubles five increments of 0.1 from 0.5 give 0.9999999999999999, and only a sixth press reaches 1.0.
- The unbounded `while running` loop is modelled one pass at a time (`Iteration`). Termination after QUIT is the caller's concern.
- pygame's event queue is a parameter: the list of events that one pass drains.
- Synth.SynthState.RenderVoices and Synth.SynthState.Iteration: they require the held voices to line up. The script's failure on ragged voices, a numpy exception, is not modelled as a result. `PitchDownChordIsRagged` shows when the requirement fails.
- The model does not fix the order in which `active_notes.values()` lists the voices. The rendering methods return it as `order`, any listing of the held keys. `MixIgnoresListing` shows that every listing gives the same mix, and `RenderVoices` promises its output for every listing.
- Synth.SynthState.MaxLength: scans the keys in an arbitrary order. The result is pinned down only up to ties, which `LowestIsUnique` shows give the same length.
- `mix_waves` on an empty buffer is not modelled: numpy's `max` raises on it. `Mixer.Mixable` excludes it, and held voices are never empty because `max_length` is at least 1.
- Key codes are pygame 2's integer constants. Events other than QUIT, KEYDOWN and KEYUP are one `OtherEvent` that changes nothing.
