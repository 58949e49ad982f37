/** Vocabulary shared by both firmware variants of the 16-key keypad:
    key indices, the MIDI note table, synthesizer notes and LED tags. */
module Keypad {

  datatype Option<+T> = None | Some(value: T)

  const NumKeys: nat := 16

  /** The bottom-right key, which doubles as the mode switch. */
  const SwitchKey: nat := 15

  type Key = k: nat | k < NumKeys

  /** One boolean per key: raw pressed states, or stored previous states. */
  type Flags = f: seq<bool> | |f| == NumKeys witness seq(16, _ => false)

  /** The xylophone's MIDI note per key (both firmware variants use the same table). */
  const MidiNotes: seq<int> := [48, 49, 50, 51, 52, 53, 54, 55, 56, 57, 58, 59, 60, 61, 62, 63]

  /** Key i sounds MIDI note 48 + i, and every key has a note, so the
      firmware's `key_index < len(MIDI_NOTES)` guard never fails. */
  lemma MidiNoteOfKey(k: Key)
    ensures k < |MidiNotes| && MidiNotes[k] == 48 + k
  {
  }

  /** A synthesizer note, reduced to its MIDI number and its role in the
      xylophone timbre (the frequency and envelope are floating point). */
  datatype Partial = Fundamental | Overtone
  datatype Note = Note(midi: int, partial: Partial)

  /** The list of notes pressed together for one key. */
  type Chord = seq<Note>

  /** The two-note list a press builds: the fundamental and its inharmonic overtone. */
  function ChordFor(midi: int): Chord
  {
    [Note(midi, Fundamental), Note(midi, Overtone)]
  }

  /** The two colour schemes: the player's hue (x+y)/7 and the xylophone's (x+y)/6. */
  datatype Palette = AudioPalette | XylophonePalette

  /** What one key's LED shows: the press colour, or its static palette colour. */
  datatype Led = White | Lit(palette: Palette)

  type Leds = l: seq<Led> | |l| == NumKeys witness seq(16, _ => White)

  function AllLit(p: Palette): Leds
  {
    seq(NumKeys, _ => Lit(p))
  }

  /** The notes held on behalf of keys 0 .. n-1 of a key -> chord mapping. */
  function Held(m: map<int, Chord>, n: nat): multiset<Note>
  {
    if n == 0 then multiset{}
    else Held(m, n - 1) + (if n - 1 in m then multiset(m[n - 1]) else multiset{})
  }

  lemma {:induction false} HeldEmpty(n: nat)
    ensures Held(map[], n) == multiset{}
  {
    if n > 0 {
      HeldEmpty(n - 1);
    }
  }

  /** Held only looks at the entries of keys below n. */
  lemma {:induction false} HeldAgree(m: map<int, Chord>, m': map<int, Chord>, n: nat)
    requires forall j :: 0 <= j < n ==> (j in m <==> j in m')
    requires forall j :: 0 <= j < n && j in m ==> m[j] == m'[j]
    ensures Held(m, n) == Held(m', n)
  {
    if n > 0 {
      HeldAgree(m, m', n - 1);
    }
  }

  /** Taking one key's chord out of the sum. */
  lemma {:induction false} HeldSplit(m: map<int, Chord>, k: int, n: nat)
    requires 0 <= k < n
    ensures Held(m, n) == Held(m - {k}, n) + (if k in m then multiset(m[k]) else multiset{})
  {
    if k == n - 1 {
      HeldAgree(m, m - {k}, n - 1);
    } else {
      HeldSplit(m, k, n - 1);
    }
  }

  /** Storing a chord under a key replaces that key's share of the sum. */
  lemma HeldPut(m: map<int, Chord>, k: int, c: Chord, n: nat)
    requires 0 <= k < n
    ensures Held(m[k := c], n) == Held(m - {k}, n) + multiset(c)
  {
    HeldSplit(m[k := c], k, n);
    assert m[k := c] - {k} == m - {k};
  }

  /** Storing a chord under a key that had none adds exactly that chord. */
  lemma HeldAdd(m: map<int, Chord>, k: int, c: Chord, n: nat)
    requires 0 <= k < n && k !in m
    ensures Held(m[k := c], n) == Held(m, n) + multiset(c)
  {
    HeldPut(m, k, c, n);
    assert m - {k} == m;
  }
}
