/** The static note table of synth.py: thirty keyboard keys, three rows of
    ten scale steps from C4 to E5, one row per waveform shape. */
module Notes {

  /** The shape strings "sine", "square" and "triangle" as a closed type. */
  datatype Shape = Sine | Square | Triangle

  /** One entry of the note table: a frequency in Hz and a shape. */
  datatype NoteDef = NoteDef(freq: real, shape: Shape)

  /** pygame key codes (the values of pygame 2). */
  type Key = int

  const KeyA: Key := 97
  const KeyS: Key := 115
  const KeyD: Key := 100
  const KeyF: Key := 102
  const KeyG: Key := 103
  const KeyH: Key := 104
  const KeyJ: Key := 106
  const KeyK: Key := 107
  const KeyL: Key := 108
  const KeySemicolon: Key := 59
  const KeyQ: Key := 113
  const KeyW: Key := 119
  const KeyE: Key := 101
  const KeyR: Key := 114
  const KeyT: Key := 116
  const KeyY: Key := 121
  const KeyU: Key := 117
  const KeyI: Key := 105
  const KeyO: Key := 111
  const KeyP: Key := 112
  const KeyZ: Key := 122
  const KeyX: Key := 120
  const KeyC: Key := 99
  const KeyV: Key := 118
  const KeyB: Key := 98
  const KeyN: Key := 110
  const KeyM: Key := 109
  const KeyComma: Key := 44
  const KeyPeriod: Key := 46
  const KeySlash: Key := 47

  const Key0: Key := 48
  const Key1: Key := 49
  const Key2: Key := 50
  const ArrowRight: Key := 1073741903
  const ArrowLeft: Key := 1073741904
  const ArrowDown: Key := 1073741905
  const ArrowUp: Key := 1073741906

  /** `note_frequencies`. */
  const NoteTable: map<Key, NoteDef> := map[
    KeyA := NoteDef(261.63, Sine),
    KeyS := NoteDef(293.66, Sine),
    KeyD := NoteDef(329.63, Sine),
    KeyF := NoteDef(349.23, Sine),
    KeyG := NoteDef(392.00, Sine),
    KeyH := NoteDef(440.00, Sine),
    KeyJ := NoteDef(493.88, Sine),
    KeyK := NoteDef(523.25, Sine),
    KeyL := NoteDef(587.33, Sine),
    KeySemicolon := NoteDef(659.25, Sine),
    KeyQ := NoteDef(261.63, Square),
    KeyW := NoteDef(293.66, Square),
    KeyE := NoteDef(329.63, Square),
    KeyR := NoteDef(349.23, Square),
    KeyT := NoteDef(392.00, Square),
    KeyY := NoteDef(440.00, Square),
    KeyU := NoteDef(493.88, Square),
    KeyI := NoteDef(523.25, Square),
    KeyO := NoteDef(587.33, Square),
    KeyP := NoteDef(659.25, Square),
    KeyZ := NoteDef(261.63, Triangle),
    KeyX := NoteDef(293.66, Triangle),
    KeyC := NoteDef(329.63, Triangle),
    KeyV := NoteDef(349.23, Triangle),
    KeyB := NoteDef(392.00, Triangle),
    KeyN := NoteDef(440.00, Triangle),
    KeyM := NoteDef(493.88, Triangle),
    KeyComma := NoteDef(523.25, Triangle),
    KeyPeriod := NoteDef(587.33, Triangle),
    KeySlash := NoteDef(659.25, Triangle)
  ]

  /** The lowest frequency of the table, which `mix_waves` recomputes with
      `min` over the table's values on every silent cycle. */
  const MinTableFreq: real := 261.63

  /** Every note of the table has a frequency of at least `MinTableFreq`, so
      every frequency is positive, and `MinTableFreq` is a table frequency:
      it is the minimum that `min(f[0] for f in note_frequencies.values())`
      returns. */
  lemma MinTableFreqIsMinimum()
    ensures MinTableFreq > 0.0
    ensures forall k :: k in NoteTable ==> MinTableFreq <= NoteTable[k].freq
    ensures exists k :: k in NoteTable && NoteTable[k].freq == MinTableFreq
  {
    assert NoteTable[KeyA].freq == MinTableFreq;
  }
}
