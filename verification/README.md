# SoundMeister3000 keypad controller in Dafny

SoundMeister3000 is CircuitPython firmware for a 16-key RGB keypad wired to an
I2S amplifier. This project models the part of it that decides what each key
does:

- edge detection on every key;
- the press timing of key 15, the mode-switch key;
- the switch between the audio-sample player and the xylophone;
- the bookkeeping of the xylophone's voices.

The firmware exists in two forms, and both are modelled.

`combined_code.py` is the dual-mode firmware. The project models it twice:

- `SoundBox` (`soundbox_spec.dfy`) is a pure state machine. `TickSpec` is one
  pass of the `while True` loop. It is built from:
  - the key-15 phase, `SwitchKeyPhase`;
  - the player handler `AudioKeys`, a left fold of `AudioKey` over keys 0..15;
  - the xylophone handler `XylophoneKeys`, which runs `XyKey` the same way.

  The lemmas state what the firmware promises about these functions. `Inv`
  is the loop invariant; its last conjunct says that no voice leaks. It
  includes:
  - no synthesizer means no voices;
  - key 15 is never a key of the voice map;
  - the output is attached to the current mode's producer only;
  - the synthesizer holds exactly one chord per voice entry, plus key 15's
    chord.
- `SoundBoxFirmware.Controller` (`soundbox.dfy`) is a class. Its fields are
  the firmware's globals, and its methods follow the source's statements and
  loops. Each method is proved to compute its `SoundBox` function on the
  abstract state `Abs()`. `Tick` also keeps `Inv`.

`xylophone.py` is the single-mode xylophone. `Xylophone.Player`
(`xylophone.dfy`) models it as a class. Its `Valid()` states an exact
invariant: the voice map is a function of the stored key states
(`KeyChords`), and the notes the synthesizer holds are the sum of the stored
chords.

Shared vocabulary is in `Keypad` (`keypad.dfy`): the MIDI table, two-note
chords and LED tags. It also defines `Held`, the multiset of notes a voice map
accounts for.

The hardware is represented by inputs and abstract state:

- Each pass receives the 16 key states as one snapshot, `pressed`.
- `now` is the value of `time.monotonic()`.
- `Outcomes` records what the hardware does:
  - whether each decoder play succeeds;
  - whether a synthesizer can be built and attached;
  - what `audio.playing` reports.
- Whether the MP3 decoder exists is fixed at startup and held in the
  controller's `decoderReady` constant.
- The I2S output is abstracted to the producer attached to it: `Idle`,
  `Decoder(file)` or `SynthOut`.
- A synthesizer is reduced to the multiset of notes it holds pressed.
- A note is reduced to its MIDI number and whether it is the fundamental or
  the overtone.
- An LED is `White` or the palette colour of a mode.

Behaviour of the code that this model follows:

- **The LED of a pressed key is not white for as long as the key is held.**
  The player handler repaints the whole palette at the start of every pass,
  so in player mode a key is white only in the pass where its press edge is
  seen (`SoundBox.AudioKeysLeds`). The xylophone handler repaints too, but
  only after its synthesizer set-up: in a pass where it gives up
  (`SoundBox.XyGivesUp`), every LED keeps the colour it had, white included.
- **In player mode a key turns white only after its sample started.** The
  LED is set inside the `try`, after `audio.play`. A failed or missing sample
  leaves the palette colour.
- **Every release of key 15 shorter than `LONG_PRESS_MIN_DURATION` takes the
  short path,** including one in the 0.4–1.0 s band. `SHORT_PRESS_MAX_DURATION`
  is declared but never read.
- **The flash shown on a long press repaints the palette of the mode being
  left.** `flash_leds_white` captures `current_mode` before the flip. The new
  mode's palette appears when that mode's handler repaints later in the same
  pass. The exception is a switch into the xylophone in a pass where its
  handler gives up (`SoundBox.XyGivesUp`): the player's palette stays until
  a later pass gets past the set-up.

## Model

| member | source | states |
|---|---|---|
| Keypad.MidiNoteOfKey | xylophone.py:67-72 | Key i sounds MIDI note 48 + i, and the table has a note for every key, so the `key_index < len(MIDI_NOTES)` guard always holds |
| SoundBox.Boot | combined_code.py:75-88 | Defines the state the main loop starts from: player mode, no synthesizer, no voices, every stored key state released, key 15 released, no key-15 sound, output idle, and the startup flash of line 299 counted and leaving the player palette |
| SoundBox.BootInv | combined_code.py:75-88 | The globals at program start satisfy the loop invariant |
| SoundBox.AudioKeys | combined_code.py:136-179 | Defines the player handler: repaint the player palette, then run the per-key body for keys 0 to 15 in order |
| SoundBox.AudioKey | combined_code.py:141-178 | One player-loop iteration touches only the output, the LEDs and key k's stored state, and records key k's current state |
| SoundBox.AudioScan | combined_code.py:141-178 | After keys 0..n-1 the player's stored states equal the current ones below n and are unchanged above; nothing outside the output, the LEDs and those states changes |
| SoundBox.AudioKeyEffect | combined_code.py:150-176 | A press edge with a decoder stops the output and then plays file k or leaves it stopped; only a successful play lights the key white; a release restores the palette colour and leaves the output alone |
| SoundBox.AudioScanKeepsOutput | combined_code.py:150-176 | Without a press edge, or without a decoder, the player loop never changes the output: a release never stops a sample |
| SoundBox.AudioScanLastPressWins | combined_code.py:153-163 | Pre-emption: the last key below n with a press edge decides the output, its file if the play succeeds and stopped otherwise |
| SoundBox.AudioScanLeds | combined_code.py:150-176 | Each LED after the player loop is white on a successful start, the palette colour on a release, and unchanged otherwise |
| SoundBox.AudioKeysLeds | combined_code.py:136-178 | After the player handler, a key is white exactly when its press started a sample in this pass, every other key shows the player palette, and the stored states equal the current key states, key 15 included |
| SoundBox.AudioScanInv | combined_code.py:136-179 | The player handler keeps the loop invariant |
| SoundBox.XylophoneKeys | combined_code.py:189-211 | Defines the xylophone handler's set-up: with no synthesizer, create one and attach it, returning after a failed creation (no synthesizer) or a failed attach (a synthesizer that is not attached); with one but an idle output, re-attach it or return; then run the key loop |
| SoundBox.XyRun | combined_code.py:228-294 | Defines the part of the xylophone handler after set-up: repaint the xylophone palette, then run the per-key body for keys 0 to 15 in order |
| SoundBox.XyPress | combined_code.py:250-275 | A press handled by the xylophone loop touches only the LEDs, the voice map and the synthesizer's notes |
| SoundBox.XyRelease | combined_code.py:284-291 | A release handled by the xylophone loop touches only the LEDs, the voice map and the synthesizer's notes |
| SoundBox.XyKey | combined_code.py:241-294 | One xylophone-loop iteration touches only the notes, the voices, the LEDs and key k's stored state, and records key k's current state |
| SoundBox.XyScan | combined_code.py:241-294 | After keys 0..n-1 the xylophone's stored states equal the current ones below n; the synthesizer stays present |
| SoundBox.XyKeyEffect | combined_code.py:250-291 | A press edge releases any chord the key holds, then presses and stores the key's two-note chord and lights it white; a release removes the entry and releases its notes, and does nothing to the synthesizer when there is no entry |
| SoundBox.XyScanVoices | combined_code.py:250-291 | After the loop, a key with a press edge holds exactly its chord, a key with a release edge has no entry, and every other key keeps its entry |
| SoundBox.XyScanKeys | combined_code.py:241-294 | The loop adds entries only for keys it has handled |
| SoundBox.XyScanLeds | combined_code.py:250-287 | Each LED after the xylophone loop is white on a press edge, the palette colour on a release edge, and unchanged otherwise |
| SoundBox.XyKeyInv | combined_code.py:250-294 | One xylophone-loop iteration keeps the loop invariant, including the exact note accounting |
| SoundBox.XyPressInv | combined_code.py:271-275 | Storing a new chord under a key with no entry keeps the accounting: the synthesizer gains exactly the stored chord |
| SoundBox.XyReleaseInv | combined_code.py:289-291 | Releasing and deleting an entry keeps the accounting: the synthesizer loses exactly that chord |
| SoundBox.XyScanInv | combined_code.py:241-294 | The xylophone loop keeps the loop invariant |
| SoundBox.XylophoneKeysInv | combined_code.py:189-294 | The xylophone handler keeps the invariant on every path: lazy creation, a failed creation, a failed resume, and the key loop |
| SoundBox.PressFindsNoVoice | combined_code.py:271-272 | Under the invariant, a key whose press edge the loop sees has no entry, so the release-before-press branch never fires |
| SoundBox.XylophoneKeysRecords | combined_code.py:193-294 | When the synthesizer cannot be created and attached, or cannot be re-attached to an idle output, the handler returns leaving the stored states, the voices, the LEDs and the output untouched; otherwise it records every current key state and a synthesizer is in place |
| SoundBox.XylophoneKeysFrame | combined_code.py:189-295 | The xylophone handler never changes the mode, key 15's state or press time, the flash count or the player's stored states |
| SoundBox.SwitchKeyPhase | combined_code.py:308-420 | Defines the key-15 part of a pass: the press branch on a press edge, the release branch on a release edge, then key 15's stored state is updated unless the press branch took the `continue` |
| SoundBox.SwitchPress | combined_code.py:308-365 | Defines the key-15 press branch: record the press time, light key 15 white, then sound it in the current mode |
| SoundBox.SwitchPressXy | combined_code.py:315-348 | Defines the xylophone half of a key-15 press: create and attach a synthesizer if there is none, abandoning the pass when that fails, then press C6's chord and record it as key 15's notes |
| SoundBox.SwitchPressPlayer | combined_code.py:350-365 | Defines the player half of a key-15 press: with a decoder, stop the output, then play the sixteenth file and set the sample flag, or leave the output stopped when the play fails |
| SoundBox.SwitchRelease | combined_code.py:369-417 | Defines the key-15 release branch: restore key 15's palette colour, then take the long path when the press lasted at least `LONG_PRESS_MIN_DURATION` and the short path otherwise |
| SoundBox.TearDown | combined_code.py:385-397 | Defines the first half of the long path: stop the output, clear key 15's sound state, and in xylophone mode with a synthesizer release every note, forget every voice and drop the synthesizer |
| SoundBox.SwitchMode | combined_code.py:382-405 | Defines the long path: the teardown, one flash that repaints the palette of the mode being left, and the mode flip |
| SoundBox.ShortRelease | combined_code.py:409-417 | Defines the short path: in xylophone mode release and clear key 15's recorded chord, and always clear the sample flag |
| SoundBox.SwitchKeyPhaseInv | combined_code.py:308-420 | The key-15 part of a pass keeps the invariant |
| SoundBox.SwitchPressXyInv | combined_code.py:309-348 | A key-15 press in xylophone mode records the press time; it goes on exactly when a synthesizer exists or can be created and attached; then key 15's notes are C6's chord and the synthesizer holds exactly its previous notes plus that chord; the invariant holds |
| SoundBox.SwitchPressPlayerInv | combined_code.py:350-365 | A key-15 press in player mode with a decoder stops the output and plays the sixteenth file, or leaves it stopped when the play fails; without a decoder the output is untouched; the sample flag is set exactly on a successful play; the invariant holds |
| SoundBox.SwitchShortReleaseInv | combined_code.py:409-417 | The short path releases exactly key 15's recorded chord, clears it and the sample flag, leaves the voices, the output and the mode alone, and keeps the invariant |
| SoundBox.SwitchLongReleaseInv | combined_code.py:382-405 | The long path flips the mode and leaves no synthesizer, no voices, no key-15 sound and a stopped output; the invariant holds |
| SoundBox.TickSpec | combined_code.py:301-429 | Defines one pass of the main loop: the key-15 part, then, unless it took the `continue`, the handler of the mode it left current |
| SoundBox.TickPreservesInv | combined_code.py:301-429 | Every pass of the main loop keeps the invariant, whatever the hardware does |
| SoundBox.TickKeepsPhase | combined_code.py:420-427 | The mode handlers leave the mode, key 15's state, its recorded press time and the flash count as the key-15 phase left them, and each leaves the other mode's state alone |
| SoundBox.PhaseMode | combined_code.py:369-405 | The key-15 phase flips the mode exactly on a release held at least one second, and never touches the per-mode stored states |
| SoundBox.PhaseProceeds | combined_code.py:308-326 | The pass goes on to a handler unless key 15 is pressed in xylophone mode and the synthesizer cannot be set up; whenever it goes on, key 15's state is recorded |
| SoundBox.PhaseVoices | combined_code.py:369-405 | A key-15 phase that ends in xylophone mode has not touched the voice map |
| SoundBox.ModeChangesOnlyOnLongRelease | combined_code.py:369-405 | After a pass, the mode has changed exactly when key 15 was released after being held at least `LONG_PRESS_MIN_DURATION`, and the change is a toggle |
| SoundBox.ShortReleaseKeepsMode | combined_code.py:409-417 | A key-15 release shorter than one second, including the 0.4–1.0 s band, keeps the mode, shows no flash, clears key 15's note and sample flag and records the release |
| SoundBox.LongReleaseTearsDown | combined_code.py:382-405 | A long press stops the output, clears key 15's sound state, drops the synthesizer and every voice, flashes once, repaints the old mode's palette and flips the mode |
| SoundBox.SynthFailureRetriesPress | combined_code.py:317-326 | If the synthesizer cannot be set up for a key-15 press, the pass stops before key 15's state is stored, so the next pass sees the same press edge; no other key is handled |
| SoundBox.PressTimeRecorded | combined_code.py:308-309 | A pass records the current time as key 15's press time exactly when it sees key 15's press edge, even when the synthesizer set-up fails; every other pass keeps the recorded time, so a release is measured from the last press edge |
| SoundBox.SwitchKeyRecorded | combined_code.py:420 | Key 15's stored state is brought up to date on every pass except the synthesizer-failure `continue` |
| SoundBox.PlayerRecordsKeys | combined_code.py:141-178 | A pass that ends in player mode leaves the player's stored states equal to the current key states |
| SoundBox.XylophoneRecordsKeys | combined_code.py:193-294 | A pass that ends in xylophone mode leaves the xylophone's stored states equal to the current key states when the handler runs and can set up its synthesizer; when the pass took the `continue` or the handler gave up, the stored states and the voices are as they were |
| SoundBoxFirmware.Controller.constructor | combined_code.py:75-88 | Startup: the globals' initial values followed by the startup flash, which is `Boot()` and satisfies the invariant |
| SoundBoxFirmware.Controller.SetStaticRainbowColors | combined_code.py:118-129 | Every key shows the given mode's palette |
| SoundBoxFirmware.Controller.FlashLedsWhite | combined_code.py:100-109 | One recorded flash, ending with the palette of the mode it was called in |
| SoundBoxFirmware.Controller.AudioPlayerKey | combined_code.py:141-178 | One player-loop iteration computes `AudioKey` |
| SoundBoxFirmware.Controller.RunAudioPlayerKeys | combined_code.py:136-179 | The player handler's loop computes `AudioKeys`; the loop invariant is the fold `AudioScan` over the keys handled so far |
| SoundBoxFirmware.Controller.XylophoneKey | combined_code.py:241-294 | One xylophone-loop iteration computes `XyKey` |
| SoundBoxFirmware.Controller.PressVoice | combined_code.py:250-275 | The press branch computes `XyPress` |
| SoundBoxFirmware.Controller.ReleaseVoice | combined_code.py:284-291 | The release branch computes `XyRelease` |
| SoundBoxFirmware.Controller.RunXylophoneKeys | combined_code.py:189-295 | The xylophone handler, with its lazy synthesizer set-up and early returns, computes `XylophoneKeys` |
| SoundBoxFirmware.Controller.PressSwitchKey | combined_code.py:308-365 | The key-15 press branch computes `SwitchPress`, returning false on the `continue` |
| SoundBoxFirmware.Controller.PressSwitchNote | combined_code.py:315-348 | The xylophone half of a key-15 press computes `SwitchPressXy` |
| SoundBoxFirmware.Controller.PressSwitchSample | combined_code.py:350-365 | The player half of a key-15 press computes `SwitchPressPlayer` |
| SoundBoxFirmware.Controller.ReleaseSwitchKey | combined_code.py:369-417 | The key-15 release branch computes `SwitchRelease` |
| SoundBoxFirmware.Controller.SwitchModes | combined_code.py:382-405 | The long-press branch computes `SwitchMode` |
| SoundBoxFirmware.Controller.StopAll | combined_code.py:385-397 | The long-press teardown computes `TearDown` |
| SoundBoxFirmware.Controller.ReleaseSwitchSound | combined_code.py:409-417 | The short-press branch computes `ShortRelease` |
| SoundBoxFirmware.Controller.HandleSwitchKey | combined_code.py:308-420 | The key-15 part of a pass computes `SwitchKeyPhase` |
| SoundBoxFirmware.Controller.Tick | combined_code.py:301-429 | One pass of the main loop computes `TickSpec` and keeps the invariant |
| Xylophone.KeyChords | xylophone.py:135-157 | Defines the voice map a set of stored key states calls for: each key that is down holds its two-note chord |
| Xylophone.NextLed | xylophone.py:112-150 | Defines a key's LED after one iteration: white on a press edge, the static colour on a release edge, unchanged otherwise |
| Xylophone.KeyChordsUpdate | xylophone.py:137-157 | Setting one key's stored state adds or removes exactly that key's chord in the voice map the stored states call for |
| Xylophone.KeyChordsStep | xylophone.py:112-157 | The press or release bookkeeping for one key turns the voice map for the old stored states into the one for the new stored states |
| Xylophone.Player.constructor | xylophone.py:82-96 | Startup: no key down, no voice, no held note, every key's static colour recorded and shown |
| Xylophone.Player.SetStaticRainbowColors | xylophone.py:86-93 | Every LED shows the palette and every key's static colour is recorded |
| Xylophone.Player.HandleKey | xylophone.py:107-157 | One loop iteration keeps the exact invariant, stores key k's current state, and sets the LED white on a press edge, to the static colour on a release edge, and leaves it otherwise |
| Xylophone.Player.PressKey | xylophone.py:137-140 | A press replaces the key's entry with its two-note chord, and the held notes stay the sum of the stored chords |
| Xylophone.Player.ReleaseKey | xylophone.py:152-155 | A release deletes the key's entry and releases its notes; with no entry the synthesizer is left alone |
| Xylophone.Player.Scan | xylophone.py:106-157 | One pass stores all 16 current key states and leaves exactly their chords as voices and as held notes, with each LED following its edge |

## Left out

- `code.py` is not part of this model. It is a separate firmware with a blocking playback loop and a floating-point hue animation.
- Floating-point work is left out:
  - note frequencies and the 2.756 overtone ratio (a note keeps only its integer MIDI number);
  - sine waveform generation;
  - envelopes;
  - hue, `hsv_to_rgb` and brightness (an LED is a White/palette tag).
- Hardware and foreign calls are abstracted. `I2SOut`, `MP3Decoder`, `open()`, `synthio`, `PMK`, `number_to_xy`, `gc.collect()` and `print` appear only as the `Outcomes` inputs and as changes of the attached producer.
- `SoundBoxFirmware.Controller.FlashLedsWhite`: the repeated white/off blinks and their sleeps are reduced to one counted flash that ends with the palette repaint. All `time.sleep` calls are left out.
- Key states are read as one snapshot per pass. The firmware polls again inside the palette repaint (`keybow.update()`), so keys 0–14 may see a later poll than key 15. The model does not capture this.
- `audio.playing` is an input, not derived from the attached producer, so the model allows every answer the hardware could give.
- One `synthPlayOk` outcome per pass serves both synthesizer attach attempts a pass can make (key 15's and the handler's). When key 15's attach succeeds and the handler then finds `audio.playing` false, its second attach is assumed to succeed as well.
- synthio's `press` and `release` are assumed never to raise, and neither is note creation.
  - Inside the xylophone handler's `try` (`combined_code.py:256-280`), a failure would leave a white key with no voice entry. `SoundBox.XyPress` always stores the chord.
  - Key 15's press (`combined_code.py:347`) and the short path's release (`combined_code.py:413`) sit in no `try`, so a failure there would end the program. `SoundBox.SwitchPressXy` and `SoundBox.ShortRelease` assume both succeed.
- `_static_xylophone_key_colors` in `combined_code.py` is not a field. It is repainted just before every read, so a release always restores the xylophone palette.
- `xylophone.py` attaches its synthesizer once at startup (`audio.play(synth)`). The single-mode model keeps no output state.
- The release of a note is immediate in the model. The synthesizer's release envelope is left out.
