/** The process-wide control state of synth.py as a value, and the two
    steps that change it: one input event (the KEYDOWN/KEYUP dispatch) and
    one cycle of the pitch effects (ramp, then wobble). The class
    `Synth.SynthState` is proved to follow these functions. */
module Controls {
  import opened Numeric
  import opened Notes

  const InitialAmplitude: real := 0.5
  const InitialFreqAdjustment: real := 1.0
  /** `global_effects_freq_adjustment`: the ramp's baseline, taken once from
      the initial multiplier and never assigned again. */
  const EffectsFreqAdjustment: real := InitialFreqAdjustment
  const LongIncreaseRate: real := 1.01
  const RampLimit: real := 2.0
  const WobbleRate: real := 0.01
  const WobbleAmount: real := 1.05
  const PitchStep: real := 1.05
  const VolumeStep: real := 0.1

  /** The pygame events the loop reacts to; every other event type is `OtherEvent`. */
  datatype Event = Quit | KeyDown(key: Key) | KeyUp(key: Key) | OtherEvent

  /** The module globals that the main loop reassigns. */
  datatype ControlState = ControlState(
    activeNotes: map<Key, NoteDef>,
    amplitude: real,
    freqAdjustment: real,
    wobbleDirection: int,
    longIncreaseActive: bool,
    wobbleActive: bool,
    running: bool)

  const Initial: ControlState :=
    ControlState(map[], InitialAmplitude, InitialFreqAdjustment, 1, false, false, true)

  /** Every held note is a note of the table, with the table's definition. */
  predicate SubMapOfTable(m: map<Key, NoteDef>) {
    forall k :: k in m ==> k in NoteTable && m[k] == NoteTable[k]
  }

  /** Every held note has a positive frequency (buffer lengths divide by it). */
  predicate PositiveFreqs(m: map<Key, NoteDef>) {
    forall k :: k in m ==> m[k].freq > 0.0
  }

  /** What every reachable state satisfies. */
  predicate Inv(c: ControlState) {
    && SubMapOfTable(c.activeNotes)
    && PositiveFreqs(c.activeNotes)
    && 0.0 <= c.amplitude <= 1.0
    && c.freqAdjustment > 0.0
    && (c.wobbleDirection == 1 || c.wobbleDirection == -1)
  }

  /** One iteration of `for event in pygame.event.get()`. */
  function Step(c: ControlState, e: Event): ControlState {
    match e
    case Quit => c.(running := false)
    case KeyDown(k) =>
      if k in NoteTable then c.(activeNotes := c.activeNotes[k := NoteTable[k]])
      else ControlKey(c, k)
    case KeyUp(k) =>
      if k in c.activeNotes then c.(activeNotes := c.activeNotes - {k}) else c
    case OtherEvent => c
  }

  /** The `elif` branches of KEYDOWN for a key that is not a note. They leave
      the registry, the wobble direction and `running` alone, keep the volume
      in [0, 1] and keep the multiplier positive. */
  function ControlKey(c: ControlState, k: Key): (r: ControlState)
    ensures r.activeNotes == c.activeNotes && r.wobbleDirection == c.wobbleDirection
    ensures r.running == c.running
    ensures 0.0 <= c.amplitude <= 1.0 ==> 0.0 <= r.amplitude <= 1.0
    ensures c.freqAdjustment > 0.0 ==> r.freqAdjustment > 0.0
  {
    if k == ArrowUp then c.(amplitude := MinReal(c.amplitude + VolumeStep, 1.0))
    else if k == ArrowDown then c.(amplitude := MaxReal(c.amplitude - VolumeStep, 0.0))
    else if k == ArrowRight then c.(freqAdjustment := c.freqAdjustment * PitchStep)
    else if k == ArrowLeft then c.(freqAdjustment := c.freqAdjustment / PitchStep)
    else if k == Key1 then c.(longIncreaseActive := !c.longIncreaseActive)
    else if k == Key2 then c.(wobbleActive := !c.wobbleActive)
    else if k == Key0 then c.(freqAdjustment := 1.0)
    else c
  }

  /** The whole drain of one cycle's events, in order. */
  function Steps(c: ControlState, events: seq<Event>): ControlState
    decreases |events|
  {
    if events == [] then c else Steps(Step(c, events[0]), events[1..])
  }

  /** The ramp effect: raise by 1 %, back to the baseline once more than 2
      above it. */
  function RampStep(adjustment: real, active: bool): real {
    if !active then adjustment
    else
      var raised := adjustment * LongIncreaseRate;
      if raised - EffectsFreqAdjustment > RampLimit then EffectsFreqAdjustment else raised
  }

  /** The wobble effect: move by 1 % in the current direction, and reverse the
      direction when the new multiplier is outside [1/1.05, 1.05]. */
  function WobbleStep(adjustment: real, direction: int, active: bool): (real, int) {
    if !active then (adjustment, direction)
    else
      var moved := adjustment * (1.0 + direction as real * WobbleRate);
      (moved, if moved > WobbleAmount || moved < 1.0 / WobbleAmount then -direction else direction)
  }

  /** One cycle of the effects: ramp, then wobble, whether or not notes are held. */
  function Advance(c: ControlState): ControlState {
    var ramped := RampStep(c.freqAdjustment, c.longIncreaseActive);
    var wobbled := WobbleStep(ramped, c.wobbleDirection, c.wobbleActive);
    c.(freqAdjustment := wobbled.0, wobbleDirection := wobbled.1)
  }

  /** `n` consecutive cycles with only the ramp enabled. */
  function RampCycles(adjustment: real, n: nat): real
    decreases n
  {
    if n == 0 then adjustment else RampCycles(RampStep(adjustment, true), n - 1)
  }

  /** `n` consecutive cycles with only the wobble enabled. */
  function WobbleCycles(adjustment: real, direction: int, n: nat): (real, int)
    decreases n
  {
    if n == 0 then (adjustment, direction)
    else
      var (a, d) := WobbleStep(adjustment, direction, true);
      WobbleCycles(a, d, n - 1)
  }

  // ---------------------------------------------------------------------
  // The event step

  lemma InitialIsValid()
    ensures Inv(Initial) && Initial.activeNotes == map[] && Initial.running
  {
  }

  /** Every event keeps the invariant: the registry stays a sub-map of the
      table, the volume stays in [0, 1], the multiplier stays positive and
      the wobble direction stays +1 or -1. */
  lemma StepPreservesInv(c: ControlState, e: Event)
    requires Inv(c)
    ensures Inv(Step(c, e))
  {
    match e
    case KeyDown(k) =>
      if k in NoteTable {
        SubMapInsert(c.activeNotes, k);
      }
    case KeyUp(k) =>
      assert Step(c, e).activeNotes.Keys <= c.activeNotes.Keys;
    case _ =>
  }

  /** Recording a table entry keeps the registry a sub-map of the table. */
  lemma SubMapInsert(m: map<Key, NoteDef>, k: Key)
    requires SubMapOfTable(m) && PositiveFreqs(m) && k in NoteTable
    ensures SubMapOfTable(m[k := NoteTable[k]]) && PositiveFreqs(m[k := NoteTable[k]])
  {
    var r := m[k := NoteTable[k]];
    MinTableFreqIsMinimum();
    forall j | j in r
      ensures j in NoteTable && r[j] == NoteTable[j]
    {
      if j != k {
        assert j in m;
      }
    }
  }

  /** A whole drain of events keeps the invariant. */
  lemma {:induction false} StepsPreserveInv(c: ControlState, events: seq<Event>)
    requires Inv(c)
    ensures Inv(Steps(c, events))
    decreases |events|
  {
    if events != [] {
      StepPreservesInv(c, events[0]);
      StepsPreserveInv(Step(c, events[0]), events[1..]);
    }
  }

  /** A note press records the table's definition for that key and changes
      nothing else; the other held notes keep theirs. */
  lemma NoteOnRecordsTableEntry(c: ControlState, k: Key)
    requires k in NoteTable
    ensures var r := Step(c, KeyDown(k));
            && r.activeNotes.Keys == c.activeNotes.Keys + {k}
            && r.activeNotes[k] == NoteTable[k]
            && (forall j :: j in c.activeNotes && j != k ==> r.activeNotes[j] == c.activeNotes[j])
            && r.(activeNotes := c.activeNotes) == c
  {
  }

  /** Pressing a held note again changes nothing. */
  lemma NoteOnIdempotent(c: ControlState, k: Key)
    requires k in NoteTable
    ensures Step(Step(c, KeyDown(k)), KeyDown(k)) == Step(c, KeyDown(k))
  {
  }

  /** A release removes the key if it is held, and changes nothing else;
      releasing a key that is not held is a no-op. */
  lemma NoteOffRemoves(c: ControlState, k: Key)
    ensures var r := Step(c, KeyUp(k));
            && r.activeNotes.Keys == c.activeNotes.Keys - {k}
            && (forall j :: j in r.activeNotes ==> r.activeNotes[j] == c.activeNotes[j])
            && r.(activeNotes := c.activeNotes) == c
    ensures k !in c.activeNotes ==> Step(c, KeyUp(k)) == c
  {
  }

  /** Pressing and releasing a note that was not held restores the state. */
  lemma NoteOnOffRestores(c: ControlState, k: Key)
    requires k in NoteTable && k !in c.activeNotes
    ensures Step(Step(c, KeyDown(k)), KeyUp(k)) == c
  {
  }

  /** The volume keys move the amplitude by 0.1 and clamp it to [0, 1]. */
  lemma VolumeKeysClamp(c: ControlState)
    requires 0.0 <= c.amplitude <= 1.0
    ensures var up := Step(c, KeyDown(ArrowUp)).amplitude;
            && up == (if c.amplitude + 0.1 <= 1.0 then c.amplitude + 0.1 else 1.0)
            && c.amplitude <= up <= 1.0
    ensures var down := Step(c, KeyDown(ArrowDown)).amplitude;
            && down == (if c.amplitude - 0.1 >= 0.0 then c.amplitude - 0.1 else 0.0)
            && 0.0 <= down <= c.amplitude
  {
  }

  /** Five volume-up presses from 0.5 reach exactly 1.0, and a sixth stays there. */
  lemma FiveVolumeUpsReachOne(c: ControlState)
    requires c.amplitude == 0.5
    ensures var up := KeyDown(ArrowUp);
            && Steps(c, [up, up, up, up, up]).amplitude == 1.0
            && Steps(c, [up, up, up, up, up, up]).amplitude == 1.0
  {
    var up := KeyDown(ArrowUp);
    var c1 := Step(c, up);
    var c2 := Step(c1, up);
    var c3 := Step(c2, up);
    var c4 := Step(c3, up);
    var c5 := Step(c4, up);
    assert c5.amplitude == 1.0;
    assert Steps(c5, []) == c5;
    assert Steps(c4, [up]) == c5;
    assert Steps(c3, [up, up]) == c5;
    assert Steps(c2, [up, up, up]) == c5;
    assert Steps(c1, [up, up, up, up]) == c5;
    assert Steps(c5, [up]) == c5;
    assert Steps(c4, [up, up]) == c5;
    assert Steps(c3, [up, up, up]) == c5;
    assert Steps(c2, [up, up, up, up]) == c5;
    assert Steps(c1, [up, up, up, up, up]) == c5;
  }

  /** The pitch keys multiply or divide the multiplier by 1.05; one undoes the
      other, and `0` sets it back to 1.0. None of them touches anything else. */
  lemma PitchKeys(c: ControlState)
    ensures Step(c, KeyDown(ArrowRight)) == c.(freqAdjustment := c.freqAdjustment * 1.05)
    ensures Step(Step(c, KeyDown(ArrowRight)), KeyDown(ArrowLeft)) == c
    ensures Step(Step(c, KeyDown(ArrowLeft)), KeyDown(ArrowRight)) == c
    ensures Step(c, KeyDown(Key0)) == c.(freqAdjustment := 1.0)
    ensures Step(c, KeyDown(Key0)).freqAdjustment == EffectsFreqAdjustment
  {
    var a := c.freqAdjustment;
    assert a * 1.05 / 1.05 == a;
    assert a / 1.05 * 1.05 == a;
  }

  /** `1` and `2` flip only their own effect; pressing either twice restores
      the state. */
  lemma ToggleKeys(c: ControlState)
    ensures Step(c, KeyDown(Key1)) == c.(longIncreaseActive := !c.longIncreaseActive)
    ensures Step(c, KeyDown(Key2)) == c.(wobbleActive := !c.wobbleActive)
    ensures Step(Step(c, KeyDown(Key1)), KeyDown(Key1)) == c
    ensures Step(Step(c, KeyDown(Key2)), KeyDown(Key2)) == c
  {
  }

  /** Quitting only clears `running`: the rest of the drain is still processed. */
  lemma {:induction false} QuitFinishesDrain(c: ControlState, events: seq<Event>)
    ensures Steps(c, [Quit] + events) == Steps(c, events).(running := false)
  {
    assert ([Quit] + events)[1..] == events;
    StoppedDrain(c, events);
  }

  /** Whether the loop is still running does not influence any event. */
  lemma {:induction false} StoppedDrain(c: ControlState, events: seq<Event>)
    ensures Steps(c.(running := false), events) == Steps(c, events).(running := false)
    decreases |events|
  {
    if events != [] {
      StoppedStep(c, events[0]);
      StoppedDrain(Step(c, events[0]), events[1..]);
    }
  }

  /** No single event reads `running`. */
  lemma StoppedStep(c: ControlState, e: Event)
    ensures Step(c.(running := false), e) == Step(c, e).(running := false)
  {
  }

  // ---------------------------------------------------------------------
  // The effects step

  /** After the ramp the multiplier is at most 2 above its baseline and still
      positive: it is either 1.01 times the old one or the baseline. */
  lemma RampBound(adjustment: real)
    requires adjustment > 0.0
    ensures var r := RampStep(adjustment, true);
            && 0.0 < r && r - EffectsFreqAdjustment <= RampLimit
            && (r == adjustment * 1.01 || r == EffectsFreqAdjustment)
            && (r == EffectsFreqAdjustment <== adjustment * 1.01 > 3.0)
  {
  }

  /** With only the ramp enabled, a multiplier in (0, 3] stays in (0, 3] for
      any number of cycles. */
  lemma {:induction false} RampStaysBounded(adjustment: real, n: nat)
    requires 0.0 < adjustment <= EffectsFreqAdjustment + RampLimit
    ensures 0.0 < RampCycles(adjustment, n) <= EffectsFreqAdjustment + RampLimit
    decreases n
  {
    if n > 0 {
      RampBound(adjustment);
      RampStaysBounded(RampStep(adjustment, true), n - 1);
    }
  }

  /** The wobble multiplies by exactly 1 + direction * 0.01, keeps the
      direction in {-1, +1}, and reverses it exactly when the new multiplier
      is above 1.05 or below 1/1.05. */
  lemma WobbleStepSpec(adjustment: real, direction: int)
    requires direction == 1 || direction == -1
    ensures var (a, d) := WobbleStep(adjustment, direction, true);
            && a == adjustment * (1.0 + direction as real * 0.01)
            && (d == 1 || d == -1)
            && (d == -direction <==> (a > 1.05 || a < 1.0 / 1.05))
            && (d == direction <==> (1.0 / 1.05 <= a <= 1.05))
  {
  }

  /** One cycle of the effects keeps the invariant and leaves everything but
      the multiplier and the wobble direction alone. */
  lemma AdvancePreservesInv(c: ControlState)
    requires Inv(c)
    ensures Inv(Advance(c))
    ensures Advance(c).(freqAdjustment := c.freqAdjustment, wobbleDirection := c.wobbleDirection) == c
    ensures !c.longIncreaseActive && !c.wobbleActive ==> Advance(c) == c
  {
  }

  /** Once the multiplier is so far below the wobble band that even one step
      up leaves it below, the wobble reverses on every cycle: each pair of
      cycles multiplies it by 1.01 * 0.99 < 1, and it never comes back. */
  lemma {:induction false} WobbleTrappedBelowBand(adjustment: real, n: nat)
    requires adjustment > 0.0 && adjustment * 1.01 < 1.0 / 1.05
    ensures var (a, d) := WobbleCycles(adjustment, 1, 2 * n);
            d == 1 && 0.0 < a <= adjustment && a * 1.01 < 1.0 / 1.05
    decreases n
  {
    if n > 0 {
      var (a1, d1) := WobbleStep(adjustment, 1, true);
      assert a1 == adjustment * 1.01 && d1 == -1;
      var (a2, d2) := WobbleStep(a1, d1, true);
      assert a2 == adjustment * 1.01 * 0.99 && d2 == 1;
      assert WobbleCycles(adjustment, 1, 2 * n) == WobbleCycles(a2, d2, 2 * (n - 1));
      WobbleTrappedBelowBand(a2, n - 1);
    }
  }

  /** Two presses of the left arrow put the multiplier at 1/1.1025, already in
      that trap: from there the enabled wobble never returns to its band. */
  lemma TwoPitchDownsTrapWobble()
    ensures var c := Steps(Initial, [KeyDown(ArrowLeft), KeyDown(ArrowLeft), KeyDown(Key2)]);
            && c.wobbleActive && c.wobbleDirection == 1
            && c.freqAdjustment == 1.0 / 1.05 / 1.05
            && c.freqAdjustment * 1.01 < 1.0 / 1.05
  {
    var c1 := Step(Initial, KeyDown(ArrowLeft));
    var c2 := Step(c1, KeyDown(ArrowLeft));
    var c3 := Step(c2, KeyDown(Key2));
    assert Steps(c3, []) == c3;
    assert Steps(c2, [KeyDown(Key2)]) == c3;
    assert Steps(c1, [KeyDown(ArrowLeft), KeyDown(Key2)]) == c3;
  }
}
