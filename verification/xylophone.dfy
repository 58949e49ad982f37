/** The single-mode xylophone firmware: a synthesizer that is always
    attached to the output, and a voice map kept in step with the stored
    key states. */
module Xylophone {
  import opened Keypad

  /** The voice map the firmware should hold for a set of keys that are
      down: each such key's two-note chord, and nothing else. */
  function KeyChords(down: Flags): map<int, Chord>
  {
    map k | 0 <= k < NumKeys && down[k] :: ChordFor(MidiNotes[k])
  }

  /** Setting one key's stored state adds or removes exactly that key's entry. */
  lemma KeyChordsUpdate(down: Flags, k: Key, v: bool)
    ensures KeyChords(down[k := v]) ==
      if v then KeyChords(down)[k := ChordFor(MidiNotes[k])] else KeyChords(down) - {k}
  {
    var m, m' := KeyChords(down), KeyChords(down[k := v]);
    if v {
      assert forall j :: j in m' <==> j in m[k := ChordFor(MidiNotes[k])];
    } else {
      assert forall j :: j in m' <==> j in m - {k};
    }
  }

  /** The voice map after one key's edge handling is the one its new stored
      states call for. */
  lemma KeyChordsStep(down: Flags, k: Key, current: bool, m: map<int, Chord>, m': map<int, Chord>)
    requires m == KeyChords(down)
    requires m' == if current && !down[k] then m[k := ChordFor(MidiNotes[k])]
                   else if !current && down[k] then m - {k}
                   else m
    ensures m' == KeyChords(down[k := current])
  {
    KeyChordsUpdate(down, k, current);
    if current == down[k] {
      assert down[k := current] == down;
      if current {
        assert m[k := ChordFor(MidiNotes[k])] == m;
      } else {
        assert m - {k} == m;
      }
    }
  }

  /** The LED a key shows after one pass, given its stored and current state. */
  function NextLed(led: Led, previous: bool, current: bool): Led
  {
    if current && !previous then White
    else if !current && previous then Lit(XylophonePalette)
    else led
  }

  class Player {
    /** The notes the synthesizer holds pressed. */
    var held: multiset<Note>
    var activeNotes: map<int, Chord>
    var prevKeyStates: Flags
    var staticKeyColors: seq<Option<Led>>
    var leds: Leds

    /** Every key has its static colour, key i has a voice entry exactly when
        its stored state is down, and the synthesizer holds exactly the
        recorded chords. */
    ghost predicate Valid()
      reads this
    {
      |staticKeyColors| == NumKeys &&
      (forall i :: 0 <= i < NumKeys ==> staticKeyColors[i] == Some(Lit(XylophonePalette))) &&
      activeNotes == KeyChords(prevKeyStates) &&
      held == Held(activeNotes, NumKeys)
    }

    /** Startup: no key down, no voice, the palette painted and recorded. */
    constructor ()
      ensures Valid()
      ensures prevKeyStates == seq(NumKeys, _ => false) && activeNotes == map[] && held == multiset{}
      ensures leds == AllLit(XylophonePalette)
    {
      held := multiset{};
      activeNotes := map[];
      prevKeyStates := seq(NumKeys, _ => false);
      staticKeyColors := seq(NumKeys, _ => None);
      leds := seq(NumKeys, _ => White);
      new;
      SetStaticRainbowColors();
      HeldEmpty(NumKeys);
      assert KeyChords(prevKeyStates) == map[];
    }

    /** set_static_rainbow_colors: paint every key and record its colour. */
    method SetStaticRainbowColors()
      requires |staticKeyColors| == NumKeys
      modifies this`leds, this`staticKeyColors
      ensures leds == AllLit(XylophonePalette)
      ensures |staticKeyColors| == NumKeys
      ensures forall i :: 0 <= i < NumKeys ==> staticKeyColors[i] == Some(Lit(XylophonePalette))
    {
      for i := 0 to NumKeys
        invariant |staticKeyColors| == NumKeys
        invariant forall j :: 0 <= j < i ==> leds[j] == Lit(XylophonePalette)
        invariant forall j :: 0 <= j < i ==> staticKeyColors[j] == Some(Lit(XylophonePalette))
      {
        leds := leds[i := Lit(XylophonePalette)];
        staticKeyColors := staticKeyColors[i := Some(Lit(XylophonePalette))];
      }
    }

    /** The main-loop body for key k: press and release bookkeeping on edges,
        then the stored state is overwritten with the current one. */
    method HandleKey(k: Key, current: bool)
      requires Valid()
      modifies this`held, this`activeNotes, this`prevKeyStates, this`leds
      ensures Valid()
      ensures prevKeyStates == old(prevKeyStates)[k := current]
      ensures leds == old(leds)[k := NextLed(old(leds[k]), old(prevKeyStates[k]), current)]
    {
      var previous := prevKeyStates[k];
      ghost var before := activeNotes;
      if current && !previous {
        if k < |MidiNotes| {
          leds := leds[k := White];
          PressKey(k);
        }
      } else if !current && previous {
        leds := leds[k := staticKeyColors[k].value];
        ReleaseKey(k);
      }
      prevKeyStates := prevKeyStates[k := current];
      KeyChordsStep(old(prevKeyStates), k, current, before, activeNotes);
    }

    /** A new press: release any notes the key still holds, then press its
        chord and record it as the key's only entry. */
    method PressKey(k: Key)
      requires held == Held(activeNotes, NumKeys)
      modifies this`held, this`activeNotes
      ensures activeNotes == old(activeNotes)[k := ChordFor(MidiNotes[k])]
      ensures held == Held(activeNotes, NumKeys)
    {
      var notes := ChordFor(MidiNotes[k]);
      ghost var rest := Held(activeNotes - {k}, NumKeys);
      HeldSplit(activeNotes, k, NumKeys);
      HeldPut(activeNotes, k, notes, NumKeys);
      if k in activeNotes {
        held := held - multiset(activeNotes[k]);
      }
      assert held == rest;
      held := held + multiset(notes);
      activeNotes := activeNotes[k := notes];
    }

    /** A release: release the key's notes and forget them; a key without
        an entry leaves the synthesizer alone. */
    method ReleaseKey(k: Key)
      requires held == Held(activeNotes, NumKeys)
      modifies this`held, this`activeNotes
      ensures activeNotes == old(activeNotes) - {k}
      ensures held == Held(activeNotes, NumKeys)
      ensures k !in old(activeNotes) ==> held == old(held)
    {
      HeldSplit(activeNotes, k, NumKeys);
      if k in activeNotes {
        held := held - multiset(activeNotes[k]);
        activeNotes := activeNotes - {k};
      } else {
        assert activeNotes - {k} == activeNotes;
      }
    }

    /** One pass of the `while True` body over all 16 keys. */
    method Scan(pressed: Flags)
      requires Valid()
      modifies this`held, this`activeNotes, this`prevKeyStates, this`leds
      ensures Valid()
      ensures prevKeyStates == pressed
      ensures activeNotes == KeyChords(pressed) && held == Held(KeyChords(pressed), NumKeys)
      ensures forall i :: 0 <= i < NumKeys ==>
        leds[i] == NextLed(old(leds[i]), old(prevKeyStates[i]), pressed[i])
    {
      for k := 0 to NumKeys
        invariant Valid()
        invariant forall i :: 0 <= i < NumKeys ==>
          prevKeyStates[i] == if i < k then pressed[i] else old(prevKeyStates[i])
        invariant forall i :: 0 <= i < NumKeys ==>
          leds[i] == if i < k then NextLed(old(leds[i]), old(prevKeyStates[i]), pressed[i]) else old(leds[i])
      {
        HandleKey(k, pressed[k]);
      }
      assert prevKeyStates == pressed;
    }
  }
}
