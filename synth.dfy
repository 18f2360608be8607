/** The main loop of synth.py: the globals it reassigns, held in one object,
    and the pieces of one iteration: the buffer length, the effects step,
    rendering and mixing the held voices, and draining the input events. */
module Synth {
  import opened Numeric
  import opened Notes
  import opened Waveform
  import opened Mixer
  import opened Controls

  datatype Option<T> = None | Some(value: T)

  /** `max(int(sample_rate * (5 / lowest)), 1)`: the length every voice is
      padded to, from the lowest held frequency before any pitch multiplier. */
  function CycleLength(lowest: real): (n: int)
    requires lowest > 0.0
    ensures n >= 1 && n >= NaturalLength(lowest)
  {
    Max(NaturalLength(lowest), 1)
  }

  /** `k` holds the lowest frequency of `m`. */
  ghost predicate IsLowest(m: map<Key, NoteDef>, k: Key) {
    k in m && forall j :: j in m ==> m[k].freq <= m[j].freq
  }

  /** `order` lists every key of `m` exactly once. */
  ghost predicate Enumerates(order: seq<Key>, m: map<Key, NoteDef>) {
    && (forall i :: 0 <= i < |order| ==> order[i] in m)
    && (forall i, j :: 0 <= i < j < |order| ==> order[i] != order[j])
    && (forall k :: k in m ==> k in order)
  }

  /** One held note's buffer this cycle: `generate_wave` on the note's
      frequency and shape with the global volume and `max_length`. */
  function Voice(note: NoteDef, amplitude: real, maxLength: int, freqAdjustment: real,
                 osc: real -> real): (w: seq<real>)
    requires note.freq > 0.0 && freqAdjustment > 0.0
    ensures |w| == WaveLength(note.freq * freqAdjustment, maxLength)
  {
    GenerateWave(note.freq, note.shape, amplitude, maxLength, freqAdjustment, osc)
  }

  /** The buffers of the notes listed in `order`, as the list comprehension
      over `active_notes.values()` builds them. */
  function Voices(m: map<Key, NoteDef>, order: seq<Key>, amplitude: real, maxLength: int,
                  freqAdjustment: real, osc: real -> real): seq<seq<real>>
    requires freqAdjustment > 0.0
    requires forall i :: 0 <= i < |order| ==> order[i] in m && m[order[i]].freq > 0.0
  {
    seq(|order|, i requires 0 <= i < |order| => Voice(m[order[i]], amplitude, maxLength, freqAdjustment, osc))
  }

  /** `out` is what `mix_waves` makes of the buffers of the notes listed in
      `order`. */
  predicate MixOf(out: seq<real>, m: map<Key, NoteDef>, order: seq<Key>, amplitude: real, maxLength: int,
                  freqAdjustment: real, osc: real -> real) {
    && freqAdjustment > 0.0
    && (forall i :: 0 <= i < |order| ==> order[i] in m && m[order[i]].freq > 0.0)
    && Mixable(Voices(m, order, amplitude, maxLength, freqAdjustment, osc))
    && out == MixWaves(Voices(m, order, amplitude, maxLength, freqAdjustment, osc))
  }

  /** Every held voice comes out of `generate_wave` with the same length, so
      `np.sum` can stack them (and every adjusted frequency is positive, so
      each length is defined). */
  predicate Aligned(m: map<Key, NoteDef>, freqAdjustment: real, maxLength: int) {
    && freqAdjustment > 0.0
    && (forall k :: k in m ==> m[k].freq > 0.0)
    && forall k, j :: k in m && j in m ==>
         WaveLength(m[k].freq * freqAdjustment, maxLength) == WaveLength(m[j].freq * freqAdjustment, maxLength)
  }

  /** The module globals of synth.py that the main loop reassigns. */
  class SynthState {
    var activeNotes: map<Key, NoteDef>
    var amplitude: real
    var freqAdjustment: real
    var wobbleDirection: int
    var isLongIncreaseActive: bool
    var isWobbleActive: bool
    var running: bool

    /** The fields as a value, for the specification functions of `Controls`. */
    function State(): ControlState
      reads this
    {
      ControlState(activeNotes, amplitude, freqAdjustment, wobbleDirection,
                   isLongIncreaseActive, isWobbleActive, running)
    }

    predicate Valid()
      reads this
    {
      Inv(State())
    }

    /** The values the script starts with. */
    constructor ()
      ensures Valid() && State() == Initial
    {
      activeNotes := map[];
      amplitude := InitialAmplitude;
      freqAdjustment := InitialFreqAdjustment;
      wobbleDirection := 1;
      isLongIncreaseActive := false;
      isWobbleActive := false;
      running := true;
    }

    /** One event of the drain: KEYDOWN of a note records it, KEYDOWN of a
        control key adjusts volume, pitch or an effect, KEYUP of a held note
        removes it, QUIT clears `running`. */
    method HandleEvent(e: Event)
      requires Valid()
      modifies this
      ensures Valid() && State() == Step(old(State()), e)
    {
      match e
      case Quit =>
        running := false;
      case KeyDown(k) =>
        if k in NoteTable {
          activeNotes := activeNotes[k := NoteTable[k]];
        } else if k == ArrowUp {
          amplitude := MinReal(amplitude + VolumeStep, 1.0);
        } else if k == ArrowDown {
          amplitude := MaxReal(amplitude - VolumeStep, 0.0);
        } else if k == ArrowRight {
          freqAdjustment := freqAdjustment * PitchStep;
        } else if k == ArrowLeft {
          freqAdjustment := freqAdjustment / PitchStep;
        } else if k == Key1 {
          isLongIncreaseActive := !isLongIncreaseActive;
        } else if k == Key2 {
          isWobbleActive := !isWobbleActive;
        } else if k == Key0 {
          freqAdjustment := 1.0;
        }
      case KeyUp(k) =>
        if k in activeNotes {
          activeNotes := activeNotes - {k};
        }
      case OtherEvent =>
    }

    /** `for event in pygame.event.get()`: every pending event, in order;
        a QUIT does not end the drain. */
    method HandleEvents(events: seq<Event>)
      requires Valid()
      modifies this
      ensures Valid() && State() == Steps(old(State()), events)
    {
      for i := 0 to |events|
        invariant Valid()
        invariant Steps(old(State()), events) == Steps(State(), events[i..])
      {
        assert events[i..][0] == events[i] && events[i..][1..] == events[i + 1..];
        HandleEvent(events[i]);
      }
    }

    /** The ramp, then the wobble, each when enabled. */
    method AdvanceEffects()
      requires Valid()
      modifies this
      ensures Valid() && State() == Advance(old(State()))
    {
      var adjustment := freqAdjustment;
      var direction := wobbleDirection;
      if isLongIncreaseActive {
        adjustment := adjustment * LongIncreaseRate;
        if adjustment - EffectsFreqAdjustment > RampLimit {
          adjustment := EffectsFreqAdjustment;
        }
      }
      ghost var ramped := adjustment;
      assert ramped == RampStep(freqAdjustment, isLongIncreaseActive);
      if isWobbleActive {
        adjustment := adjustment * (1.0 + direction as real * WobbleRate);
        if adjustment > WobbleAmount || adjustment < 1.0 / WobbleAmount {
          direction := -direction;
        }
      }
      assert (adjustment, direction) == WobbleStep(ramped, wobbleDirection, isWobbleActive);
      freqAdjustment, wobbleDirection := adjustment, direction;
      AdvancePreservesInv(old(State()));
    }

    /** `max_length`: 0 with no held notes, otherwise the cycle length of the
        lowest held frequency. The scan visits the notes in an arbitrary
        order; the result does not depend on it. */
    method MaxLength() returns (maxLength: int)
      requires Valid()
      ensures maxLength == 0 <==> activeNotes == map[]
      ensures activeNotes != map[] ==>
                exists k :: IsLowest(activeNotes, k) && maxLength == CycleLength(activeNotes[k].freq)
    {
      maxLength := 0;
      if activeNotes != map[] {
        var keys := activeNotes.Keys;
        HasSomeKey(activeNotes);
        var first :| first in keys;
        var lowest := activeNotes[first].freq;
        ghost var lowestKey := first;
        keys := keys - {first};
        while keys != {}
          invariant keys <= activeNotes.Keys
          invariant lowestKey in activeNotes && lowest == activeNotes[lowestKey].freq
          invariant forall j :: j in activeNotes && j !in keys ==> lowest <= activeNotes[j].freq
          decreases keys
        {
          HasSomeElement(keys);
          var k :| k in keys;
          if activeNotes[k].freq < lowest {
            lowest := activeNotes[k].freq;
            lowestKey := k;
          }
          keys := keys - {k};
        }
        maxLength := CycleLength(lowest);
        assert IsLowest(activeNotes, lowestKey);
      }
    }

    /** The first half of a loop iteration: compute `max_length`, then run the
        effects, whether or not notes are held. */
    method StartCycle() returns (maxLength: int)
      requires Valid()
      modifies this
      ensures Valid() && State() == Advance(old(State()))
      ensures maxLength == 0 <==> activeNotes == map[]
      ensures activeNotes != map[] ==>
                exists k :: IsLowest(activeNotes, k) && maxLength == CycleLength(activeNotes[k].freq)
    {
      maxLength := MaxLength();
      AdvanceEffects();
    }

    /** One pass of `while running`: `max_length` from the held notes, the
        effects, the audio buffer (when notes are held) rendered at the new
        multiplier and the volume from before this pass's events, then the
        drain of the pending events. The caller vouches that the held voices
        line up at the new multiplier; `PitchDownChordIsRagged` shows a state
        where they do not. */
    method Iteration(events: seq<Event>, osc: real -> real)
      returns (maxLength: int, out: Option<seq<real>>, order: seq<Key>)
      requires Valid()
      requires forall k :: IsLowest(activeNotes, k) ==>
                 Aligned(activeNotes, Advance(State()).freqAdjustment, CycleLength(activeNotes[k].freq))
      modifies this
      ensures Valid() && State() == Steps(Advance(old(State())), events)
      ensures maxLength == 0 <==> old(activeNotes) == map[]
      ensures out.None? <==> old(activeNotes) == map[]
      ensures out.Some? ==>
                && (exists k :: IsLowest(old(activeNotes), k) && maxLength == CycleLength(old(activeNotes)[k].freq))
                && Enumerates(order, old(activeNotes))
                && |out.value| >= maxLength
                && forall i :: 0 <= i < |out.value| ==> Abs(out.value[i]) <= 1.0
      ensures out.Some? ==>
                MixOf(out.value, old(activeNotes), order, old(amplitude), maxLength,
                      Advance(old(State())).freqAdjustment, osc)
      ensures out.Some? ==>
                forall o :: Enumerates(o, old(activeNotes)) ==>
                  MixOf(out.value, old(activeNotes), o, old(amplitude), maxLength,
                        Advance(old(State())).freqAdjustment, osc)
    {
      maxLength := StartCycle();
      out, order := RenderVoices(maxLength, osc);
      HandleEvents(events);
    }

    /** `[generate_wave(...) for freq in active_notes.values()]`: one buffer
        per held note, in the dictionary's iteration order. */
    method GenerateVoices(maxLength: int, osc: real -> real) returns (waves: seq<seq<real>>, order: seq<Key>)
      requires Valid()
      ensures Enumerates(order, activeNotes)
      ensures forall i :: 0 <= i < |order| ==> activeNotes[order[i]].freq > 0.0
      ensures waves == Voices(activeNotes, order, amplitude, maxLength, freqAdjustment, osc)
    {
      order := [];
      waves := [];
      var keys := activeNotes.Keys;
      while keys != {}
        invariant keys <= activeNotes.Keys
        invariant forall i :: 0 <= i < |order| ==>
                    order[i] in activeNotes && order[i] !in keys && activeNotes[order[i]].freq > 0.0
        invariant forall i, j :: 0 <= i < j < |order| ==> order[i] != order[j]
        invariant forall k :: k in activeNotes ==> k in keys || k in order
        invariant waves == Voices(activeNotes, order, amplitude, maxLength, freqAdjustment, osc)
        decreases keys
      {
        HasSomeElement(keys);
        var k :| k in keys;
        assert activeNotes[k].freq > 0.0;
        VoicesAppend(activeNotes, order, amplitude, maxLength, freqAdjustment, osc, k);
        waves := waves + [Voice(activeNotes[k], amplitude, maxLength, freqAdjustment, osc)];
        order := order + [k];
        keys := keys - {k};
      }
    }

    /** The second half: when `max_length > 0` and notes are held, generate
        every held voice at the current multiplier and volume and mix them.
        The result is clip-safe and at least `maxLength` long. */
    method RenderVoices(maxLength: int, osc: real -> real) returns (out: Option<seq<real>>, order: seq<Key>)
      requires Valid()
      requires maxLength > 0 && activeNotes != map[] ==> Aligned(activeNotes, freqAdjustment, maxLength)
      ensures out.None? <==> maxLength <= 0 || activeNotes == map[]
      ensures out.Some? ==>
                && Enumerates(order, activeNotes)
                && MixOf(out.value, activeNotes, order, amplitude, maxLength, freqAdjustment, osc)
      ensures out.Some? ==>
                && |out.value| >= maxLength
                && forall i :: 0 <= i < |out.value| ==> Abs(out.value[i]) <= 1.0
      ensures out.Some? ==>
                forall o :: Enumerates(o, activeNotes) ==>
                  MixOf(out.value, activeNotes, o, amplitude, maxLength, freqAdjustment, osc)
    {
      order := [];
      if maxLength <= 0 || activeNotes == map[] {
        return None, order;
      }
      var waves;
      waves, order := GenerateVoices(maxLength, osc);
      AlignedVoicesMixable(activeNotes, order, amplitude, maxLength, freqAdjustment, osc);
      HasSomeKey(activeNotes);
      assert order != [];
      MixClipSafe(waves);
      out := Some(MixWaves(waves));
      forall o | Enumerates(o, activeNotes)
        ensures MixOf(out.value, activeNotes, o, amplitude, maxLength, freqAdjustment, osc)
      {
        MixOfAnyListing(out.value, activeNotes, order, o, amplitude, maxLength, freqAdjustment, osc);
      }
    }
  }

  /** Listing one more key appends that note's buffer to the voices. */
  lemma VoicesAppend(m: map<Key, NoteDef>, order: seq<Key>, amplitude: real, maxLength: int,
                     freqAdjustment: real, osc: real -> real, k: Key)
    requires freqAdjustment > 0.0
    requires forall i :: 0 <= i < |order| ==> order[i] in m && m[order[i]].freq > 0.0
    requires k in m && m[k].freq > 0.0
    ensures forall i :: 0 <= i < |order + [k]| ==> (order + [k])[i] in m && m[(order + [k])[i]].freq > 0.0
    ensures Voices(m, order + [k], amplitude, maxLength, freqAdjustment, osc)
            == Voices(m, order, amplitude, maxLength, freqAdjustment, osc) + [Voice(m[k], amplitude, maxLength, freqAdjustment, osc)]
  {
  }

  /** A listing without duplicates holds each key at most once. */
  lemma {:induction false} DistinctCount(o: seq<Key>, k: Key)
    requires forall i, j :: 0 <= i < j < |o| ==> o[i] != o[j]
    ensures multiset(o)[k] == if k in o then 1 else 0
    decreases |o|
  {
    if o != [] {
      assert o == [o[0]] + o[1..];
      assert multiset(o) == multiset{o[0]} + multiset(o[1..]);
      assert o[0] !in o[1..];
      DistinctCount(o[1..], k);
    }
  }

  /** Two listings of the held keys are permutations of each other. */
  lemma ListingsPermute(o1: seq<Key>, o2: seq<Key>, m: map<Key, NoteDef>)
    requires Enumerates(o1, m) && Enumerates(o2, m)
    ensures multiset(o1) == multiset(o2)
  {
    forall k
      ensures multiset(o1)[k] == multiset(o2)[k]
    {
      DistinctCount(o1, k);
      DistinctCount(o2, k);
      if k in o1 {
        var i :| 0 <= i < |o1| && o1[i] == k;
      }
      if k in o2 {
        var i :| 0 <= i < |o2| && o2[i] == k;
      }
    }
  }

  /** The voices of two listings joined are the two lists of voices joined. */
  lemma VoicesConcat(m: map<Key, NoteDef>, x: seq<Key>, y: seq<Key>, amplitude: real, maxLength: int,
                     freqAdjustment: real, osc: real -> real)
    requires freqAdjustment > 0.0
    requires forall i :: 0 <= i < |x| ==> x[i] in m && m[x[i]].freq > 0.0
    requires forall i :: 0 <= i < |y| ==> y[i] in m && m[y[i]].freq > 0.0
    ensures forall i :: 0 <= i < |x + y| ==> (x + y)[i] in m && m[(x + y)[i]].freq > 0.0
    ensures Voices(m, x + y, amplitude, maxLength, freqAdjustment, osc)
            == Voices(m, x, amplitude, maxLength, freqAdjustment, osc) + Voices(m, y, amplitude, maxLength, freqAdjustment, osc)
  {
    forall i | 0 <= i < |x + y|
      ensures (x + y)[i] in m && m[(x + y)[i]].freq > 0.0
    {
      if i >= |x| {
        assert (x + y)[i] == y[i - |x|];
      }
    }
  }

  /** Every key in `order` is held, with a positive frequency. */
  predicate Listed(m: map<Key, NoteDef>, order: seq<Key>) {
    forall i :: 0 <= i < |order| ==> order[i] in m && m[order[i]].freq > 0.0
  }

  /** Taking key `j` out of a listing takes its voice out of the voices. */
  lemma VoicesRemove(m: map<Key, NoteDef>, o: seq<Key>, j: nat, amplitude: real, maxLength: int,
                     freqAdjustment: real, osc: real -> real)
    requires freqAdjustment > 0.0
    requires forall i :: 0 <= i < |o| ==> o[i] in m && m[o[i]].freq > 0.0
    requires j < |o|
    ensures Listed(m, o[..j] + o[j + 1..])
    ensures multiset(o[..j] + o[j + 1..]) == multiset(o) - multiset{o[j]}
    ensures multiset(Voices(m, o, amplitude, maxLength, freqAdjustment, osc))
            == multiset(Voices(m, o[..j] + o[j + 1..], amplitude, maxLength, freqAdjustment, osc))
               + multiset{Voice(m[o[j]], amplitude, maxLength, freqAdjustment, osc)}
  {
    var rest := o[..j] + o[j + 1..];
    forall i | 0 <= i < |rest|
      ensures rest[i] in m && m[rest[i]].freq > 0.0
    {
      if i < j {
        assert rest[i] == o[i];
      } else {
        assert rest[i] == o[i + 1];
      }
    }
    assert o == o[..j] + [o[j]] + o[j + 1..];
    assert multiset(o) == multiset(o[..j]) + multiset{o[j]} + multiset(o[j + 1..]);
    var vs := Voices(m, o, amplitude, maxLength, freqAdjustment, osc);
    var vr := Voices(m, rest, amplitude, maxLength, freqAdjustment, osc);
    assert vr == vs[..j] + vs[j + 1..];
    assert vs == vs[..j] + [vs[j]] + vs[j + 1..];
    assert multiset(vs) == multiset(vs[..j]) + multiset{vs[j]} + multiset(vs[j + 1..]);
  }

  /** Permuting the listed keys permutes their voices. */
  lemma {:induction false} VoicesPermutation(m: map<Key, NoteDef>, o1: seq<Key>, o2: seq<Key>, amplitude: real,
                                             maxLength: int, freqAdjustment: real, osc: real -> real)
    requires freqAdjustment > 0.0
    requires forall i :: 0 <= i < |o1| ==> o1[i] in m && m[o1[i]].freq > 0.0
    requires forall i :: 0 <= i < |o2| ==> o2[i] in m && m[o2[i]].freq > 0.0
    requires multiset(o1) == multiset(o2)
    ensures multiset(Voices(m, o1, amplitude, maxLength, freqAdjustment, osc))
            == multiset(Voices(m, o2, amplitude, maxLength, freqAdjustment, osc))
    decreases |o1|
  {
    if o1 == [] {
      assert |o2| == |multiset(o2)| == 0;
    } else {
      var k := o1[0];
      assert k in multiset(o2);
      var j :| 0 <= j < |o2| && o2[j] == k;
      var rest1, rest2 := o1[..0] + o1[1..], o2[..j] + o2[j + 1..];
      VoicesRemove(m, o1, 0, amplitude, maxLength, freqAdjustment, osc);
      VoicesRemove(m, o2, j, amplitude, maxLength, freqAdjustment, osc);
      VoicesPermutation(m, rest1, rest2, amplitude, maxLength, freqAdjustment, osc);
      var v := Voice(m[k], amplitude, maxLength, freqAdjustment, osc);
      var r1 := Voices(m, rest1, amplitude, maxLength, freqAdjustment, osc);
      var r2 := Voices(m, rest2, amplitude, maxLength, freqAdjustment, osc);
      assert multiset(Voices(m, o1, amplitude, maxLength, freqAdjustment, osc)) == multiset(r1) + multiset{v};
      assert multiset(Voices(m, o2, amplitude, maxLength, freqAdjustment, osc)) == multiset(r2) + multiset{v};
    }
  }

  /** The mix of the held voices does not depend on the order in which
      `active_notes.values()` lists them: any two listings mix to the same
      buffer. */
  lemma MixIgnoresListing(m: map<Key, NoteDef>, o1: seq<Key>, o2: seq<Key>, amplitude: real, maxLength: int,
                          freqAdjustment: real, osc: real -> real)
    requires Enumerates(o1, m) && Enumerates(o2, m) && freqAdjustment > 0.0
    requires forall i :: 0 <= i < |o1| ==> m[o1[i]].freq > 0.0
    requires forall i :: 0 <= i < |o2| ==> m[o2[i]].freq > 0.0
    requires Mixable(Voices(m, o1, amplitude, maxLength, freqAdjustment, osc))
    ensures Mixable(Voices(m, o2, amplitude, maxLength, freqAdjustment, osc))
    ensures MixWaves(Voices(m, o1, amplitude, maxLength, freqAdjustment, osc))
            == MixWaves(Voices(m, o2, amplitude, maxLength, freqAdjustment, osc))
  {
    ListingsPermute(o1, o2, m);
    VoicesPermutation(m, o1, o2, amplitude, maxLength, freqAdjustment, osc);
    MixOrderIndependent(Voices(m, o1, amplitude, maxLength, freqAdjustment, osc),
                        Voices(m, o2, amplitude, maxLength, freqAdjustment, osc));
  }

  /** A buffer that is the mix of one listing of the held keys is the mix of
      every listing of them. */
  lemma MixOfAnyListing(out: seq<real>, m: map<Key, NoteDef>, order: seq<Key>, o: seq<Key>, amplitude: real,
                        maxLength: int, freqAdjustment: real, osc: real -> real)
    requires PositiveFreqs(m) && Enumerates(order, m) && Enumerates(o, m)
    requires MixOf(out, m, order, amplitude, maxLength, freqAdjustment, osc)
    ensures MixOf(out, m, o, amplitude, maxLength, freqAdjustment, osc)
  {
    forall i | 0 <= i < |o|
      ensures o[i] in m && m[o[i]].freq > 0.0
    {
      var k := o[i];
      assert k in m;
    }
    MixIgnoresListing(m, order, o, amplitude, maxLength, freqAdjustment, osc);
  }

  /** Voice `i` has the length `generate_wave` gives its own note. */
  lemma VoiceLength(m: map<Key, NoteDef>, order: seq<Key>, amplitude: real, maxLength: int,
                    freqAdjustment: real, osc: real -> real, i: nat, k: Key)
    requires freqAdjustment > 0.0
    requires forall i :: 0 <= i < |order| ==> order[i] in m && m[order[i]].freq > 0.0
    requires i < |order| && k == order[i]
    ensures var ws := Voices(m, order, amplitude, maxLength, freqAdjustment, osc);
            && |ws| == |order|
            && |ws[i]| == WaveLength(m[k].freq * freqAdjustment, maxLength) >= maxLength
  {
  }

  /** Voices of an aligned chord can be mixed, and each is at least
      `maxLength` long. */
  lemma AlignedVoicesMixable(m: map<Key, NoteDef>, order: seq<Key>, amplitude: real, maxLength: int,
                             freqAdjustment: real, osc: real -> real)
    requires maxLength > 0 && Aligned(m, freqAdjustment, maxLength)
    requires forall i :: 0 <= i < |order| ==> order[i] in m && m[order[i]].freq > 0.0
    ensures var ws := Voices(m, order, amplitude, maxLength, freqAdjustment, osc);
            Mixable(ws) && forall i :: 0 <= i < |ws| ==> |ws[i]| >= maxLength
  {
    var ws := Voices(m, order, amplitude, maxLength, freqAdjustment, osc);
    forall i | 0 <= i < |ws|
      ensures |ws[i]| == |ws[0]| && |ws[i]| >= maxLength
    {
      AlignedVoicePair(m, order, amplitude, maxLength, freqAdjustment, osc, i, 0);
    }
  }

  lemma AlignedVoicePair(m: map<Key, NoteDef>, order: seq<Key>, amplitude: real, maxLength: int,
                         freqAdjustment: real, osc: real -> real, i: nat, j: nat)
    requires Aligned(m, freqAdjustment, maxLength)
    requires forall i :: 0 <= i < |order| ==> order[i] in m && m[order[i]].freq > 0.0
    requires i < |order| && j < |order|
    ensures var ws := Voices(m, order, amplitude, maxLength, freqAdjustment, osc);
            |ws[i]| == |ws[j]| >= maxLength
  {
    var ki, kj := order[i], order[j];
    VoiceLength(m, order, amplitude, maxLength, freqAdjustment, osc, i, ki);
    VoiceLength(m, order, amplitude, maxLength, freqAdjustment, osc, j, kj);
    AlignedPair(m, freqAdjustment, maxLength, ki, kj);
  }

  lemma AlignedPair(m: map<Key, NoteDef>, freqAdjustment: real, maxLength: int, k: Key, j: Key)
    requires Aligned(m, freqAdjustment, maxLength) && k in m && j in m
    ensures WaveLength(m[k].freq * freqAdjustment, maxLength) == WaveLength(m[j].freq * freqAdjustment, maxLength)
  {
  }

  lemma HasSomeElement(s: set<Key>)
    requires s != {}
    ensures exists k :: k in s
  {
    if forall k :: k !in s {
      assert false;
    }
  }

  lemma HasSomeKey(m: map<Key, NoteDef>)
    requires m != map[]
    ensures exists k :: k in m
  {
    if forall k :: k !in m {
      assert false;
    }
  }

  /** With a multiplier of at least 1 no voice is longer than the lowest
      note's cycle length, so every voice is padded to exactly that length and
      the voices can be mixed. */
  lemma AlignedWhenNotLowered(m: map<Key, NoteDef>, freqAdjustment: real, lowest: Key)
    requires PositiveFreqs(m) && freqAdjustment >= 1.0 && IsLowest(m, lowest)
    ensures Aligned(m, freqAdjustment, CycleLength(m[lowest].freq))
    ensures forall k :: k in m ==>
              WaveLength(m[k].freq * freqAdjustment, CycleLength(m[lowest].freq)) == CycleLength(m[lowest].freq)
  {
    var len := CycleLength(m[lowest].freq);
    forall k | k in m
      ensures WaveLength(m[k].freq * freqAdjustment, len) == len
    {
      assert m[k].freq * freqAdjustment >= m[k].freq * 1.0;
      NaturalLengthAntitone(m[lowest].freq, m[k].freq * freqAdjustment);
    }
  }

  /** Keys that tie for the lowest frequency share it, so `max_length` is the
      same whichever of them the scan of `active_notes` meets. */
  lemma LowestIsUnique(m: map<Key, NoteDef>, k: Key, j: Key)
    requires IsLowest(m, k) && IsLowest(m, j) && m[k].freq > 0.0
    ensures m[k].freq == m[j].freq
    ensures CycleLength(m[k].freq) == CycleLength(m[j].freq)
  {
  }

  /** The cycle length of middle C (261.63 Hz) is 842 samples. */
  lemma MiddleCCycleLength()
    ensures CycleLength(261.63) == 842
  {
  }

  /** Left arrow, then `a` and `s`: the multiplier is 1/1.05, `max_length` is
      842 (from middle C), but middle C's own buffer is 884 samples while D4's
      is padded to 842. The voices are ragged, so `RenderVoices` cannot be
      called: the script's `np.sum` fails on this input. */
  lemma PitchDownChordIsRagged()
    ensures var c := Steps(Initial, [KeyDown(ArrowLeft), KeyDown(KeyA), KeyDown(KeyS)]);
            && c.activeNotes == map[KeyA := NoteDef(261.63, Sine), KeyS := NoteDef(293.66, Sine)]
            && c.freqAdjustment == 1.0 / 1.05
            && IsLowest(c.activeNotes, KeyA)
            && CycleLength(c.activeNotes[KeyA].freq) == 842
            && WaveLength(261.63 * (1.0 / 1.05), 842) == 884
            && WaveLength(293.66 * (1.0 / 1.05), 842) == 842
            && !Aligned(c.activeNotes, c.freqAdjustment, 842)
  {
    PitchDownChordState();
    MiddleCCycleLength();
    LoweredChordLengths();
    var m := map[KeyA := NoteDef(261.63, Sine), KeyS := NoteDef(293.66, Sine)];
    assert WaveLength(m[KeyA].freq * (1.0 / 1.05), 842) != WaveLength(m[KeyS].freq * (1.0 / 1.05), 842);
  }

  /** The state after left arrow, `a`, `s` from the start. */
  lemma PitchDownChordState()
    ensures Steps(Initial, [KeyDown(ArrowLeft), KeyDown(KeyA), KeyDown(KeyS)])
            == Initial.(activeNotes := map[KeyA := NoteDef(261.63, Sine), KeyS := NoteDef(293.66, Sine)],
                        freqAdjustment := 1.0 / 1.05)
  {
    var c1 := Step(Initial, KeyDown(ArrowLeft));
    var c2 := Step(c1, KeyDown(KeyA));
    var c3 := Step(c2, KeyDown(KeyS));
    assert Steps(c3, []) == c3;
    assert Steps(c2, [KeyDown(KeyS)]) == c3;
    assert Steps(c1, [KeyDown(KeyA), KeyDown(KeyS)]) == c3;
  }

  /** At a multiplier of 1/1.05, middle C's natural buffer is 884 samples and
      D4's 788, padded to 842. */
  lemma LoweredChordLengths()
    ensures WaveLength(261.63 * (1.0 / 1.05), 842) == 884
    ensures WaveLength(293.66 * (1.0 / 1.05), 842) == 842
  {
  }
}
