/** The dual-mode firmware's main loop as a controller object whose fields
    are the firmware's globals. Each method is proved to follow its
    specification function in SoundBox; the invariant Inv is kept by Tick. */
module SoundBoxFirmware {
  import opened Keypad
  import opened SoundBox

  class Controller {
    /** Whether the MP3 decoder could be built at startup. */
    const decoderReady: bool

    var mode: Mode
    var synth: Option<Synth>
    var activeNotes: map<int, Chord>
    var audioPrev: Flags
    var xyPrev: Flags
    var prevSwitch: bool
    var switchPressStart: real
    var switchNotes: Option<Chord>
    var switchPlayingMp3: bool
    var sink: Sink
    var leds: Leds
    var flashes: nat

    /** The globals as one value. */
    function Abs(): State
      reads this
    {
      State(mode, synth, activeNotes, audioPrev, xyPrev, prevSwitch, switchPressStart,
            switchNotes, switchPlayingMp3, sink, leds, flashes)
    }

    ghost predicate Valid()
      reads this
    {
      Inv(Abs())
    }

    /** Program start: globals at their initial values, then the startup
        flash, which ends by painting the player's palette. */
    constructor (decoderReady: bool)
      ensures Valid() && this.decoderReady == decoderReady
      ensures Abs() == Boot()
    {
      this.decoderReady := decoderReady;
      mode := AudioPlayer;
      synth := None;
      activeNotes := map[];
      audioPrev := seq(NumKeys, _ => false);
      xyPrev := seq(NumKeys, _ => false);
      prevSwitch := false;
      switchPressStart := 0.0;
      switchNotes := None;
      switchPlayingMp3 := false;
      sink := Idle;
      leds := seq(NumKeys, _ => White);
      flashes := 0;
      new;
      FlashLedsWhite(AudioPalette);
      BootInv();
    }

    /** set_static_rainbow_colors: every key shows palette p. */
    method SetStaticRainbowColors(p: Palette)
      modifies this`leds
      ensures leds == AllLit(p)
    {
      for i := 0 to NumKeys
        invariant forall j :: 0 <= j < i ==> leds[j] == Lit(p)
      {
        leds := leds[i := Lit(p)];
      }
    }

    /** flash_leds_white, reduced to one recorded flash; it ends by painting
        the palette of the mode it was called in. */
    method FlashLedsWhite(p: Palette)
      modifies this`leds, this`flashes
      ensures leds == AllLit(p) && flashes == old(flashes) + 1
    {
      flashes := flashes + 1;
      SetStaticRainbowColors(p);
    }

    /** The body of the player loop for one key. */
    method AudioPlayerKey(k: Key, pressed: Flags, playOk: Flags)
      modifies this
      ensures Abs() == AudioKey(old(Abs()), k, pressed, playOk, decoderReady)
    {
      if k == SwitchKey {
        // key 15 belongs to the main loop; only its stored state is kept current
        audioPrev := audioPrev[k := pressed[k]];
        return;
      }
      var current, previous := pressed[k], audioPrev[k];
      if current && !previous {
        if k < AudioFileCount {
          if decoderReady {
            sink := Idle;
            if playOk[k] {
              sink := Decoder(k);
              leds := leds[k := White];
            }
          }
        }
      } else if !current && previous {
        leds := leds[k := Lit(AudioPalette)];
      }
      audioPrev := audioPrev[k := current];
    }

    /** run_audio_player_other_keys */
    method RunAudioPlayerKeys(pressed: Flags, playOk: Flags)
      modifies this
      ensures Abs() == AudioKeys(old(Abs()), pressed, playOk, decoderReady)
    {
      SetStaticRainbowColors(AudioPalette);
      ghost var start := Abs();
      for k := 0 to NumKeys
        invariant Abs() == AudioScan(start, pressed, playOk, decoderReady, k)
      {
        AudioPlayerKey(k, pressed, playOk);
      }
    }

    /** The body of the xylophone loop for one key. */
    method XylophoneKey(k: Key, pressed: Flags)
      requires synth.Some?
      modifies this
      ensures Abs() == XyKey(old(Abs()), k, pressed)
    {
      if k == SwitchKey {
        xyPrev := xyPrev[k := pressed[k]];
        return;
      }
      var current, previous := pressed[k], xyPrev[k];
      if current && !previous {
        if k < |MidiNotes| {
          PressVoice(k);
        }
      } else if !current && previous {
        ReleaseVoice(k);
      }
      xyPrev := xyPrev[k := current];
    }

    /** A press edge in the xylophone loop. */
    method PressVoice(k: Key)
      requires synth.Some?
      modifies this
      ensures Abs() == XyPress(old(Abs()), k)
    {
      ghost var s := Abs();
      leds := leds[k := White];
      var held := synth.value.held;
      if k in activeNotes {
        // release whatever the key still holds
        held := held - multiset(activeNotes[k]);
      }
      var notes := ChordFor(MidiNotes[k]);
      synth := Some(Synth(held + multiset(notes)));
      activeNotes := activeNotes[k := notes];
      assert synth == XyPress(s, k).synth;
      assert activeNotes == XyPress(s, k).activeNotes;
      assert leds == XyPress(s, k).leds;
    }

    /** A release edge in the xylophone loop. */
    method ReleaseVoice(k: Key)
      requires synth.Some?
      modifies this
      ensures Abs() == XyRelease(old(Abs()), k)
    {
      // the key's static colour was recorded by the repaint just before the loop
      leds := leds[k := Lit(XylophonePalette)];
      if k in activeNotes {
        synth := Some(Synth(synth.value.held - multiset(activeNotes[k])));
        activeNotes := activeNotes - {k};
      }
    }

    /** run_xylophone_other_keys */
    method RunXylophoneKeys(pressed: Flags, hw: Outcomes)
      modifies this
      ensures Abs() == XylophoneKeys(old(Abs()), pressed, hw)
    {
      if synth.None? {
        if !hw.synthInitOk {
          return;
        }
        synth := Some(Synth(multiset{}));
        if !hw.synthPlayOk {
          return;
        }
        sink := SynthOut;
      } else if !hw.audioPlaying {
        if !hw.synthPlayOk {
          return;
        }
        sink := SynthOut;
      }
      SetStaticRainbowColors(XylophonePalette);
      ghost var start := Abs();
      for k := 0 to NumKeys
        invariant Abs() == XyScan(start, pressed, k)
      {
        XylophoneKey(k, pressed);
      }
    }

    /** The press-edge branch for key 15. Returns false when the pass is cut
        short by the synthesizer-failure `continue`. */
    method PressSwitchKey(now: real, hw: Outcomes) returns (proceed: bool)
      modifies this
      ensures Phase(Abs(), proceed) == SwitchPress(old(Abs()), now, hw, decoderReady)
    {
      switchPressStart := now;
      leds := leds[SwitchKey := White];
      if mode == Xylophone {
        proceed := PressSwitchNote(hw);
      } else {
        PressSwitchSample(hw);
        proceed := true;
      }
    }

    /** Key 15 pressed in xylophone mode. */
    method PressSwitchNote(hw: Outcomes) returns (proceed: bool)
      modifies this
      ensures Phase(Abs(), proceed) == SwitchPressXy(old(Abs()), hw)
    {
      if synth.None? {
        if !hw.synthInitOk {
          return false;
        }
        synth := Some(Synth(multiset{}));
        if !hw.synthPlayOk {
          return false;
        }
        sink := SynthOut;
      }
      var notes := ChordFor(SwitchKeyMidi);
      switchNotes := Some(notes);
      synth := Some(Synth(synth.value.held + multiset(notes)));
      return true;
    }

    /** Key 15 pressed in player mode. */
    method PressSwitchSample(hw: Outcomes)
      modifies this
      ensures Abs() == SwitchPressPlayer(old(Abs()), hw, decoderReady)
    {
      if decoderReady {
        sink := Idle;
        if hw.playOk[SwitchKey] {
          sink := Decoder(SwitchKey);
          switchPlayingMp3 := true;
        }
      }
    }

    /** The release-edge branch for key 15: long press switches mode, any
        shorter press releases the key's own sound state. */
    method ReleaseSwitchKey(now: real)
      requires SwitchNotesHaveSynth(Abs())
      modifies this
      ensures Abs() == SwitchRelease(old(Abs()), now)
    {
      var duration := now - switchPressStart;
      leds := leds[SwitchKey := Lit(PaletteOf(mode))];
      if duration >= LongPressMinDuration {
        SwitchModes();
      } else {
        ReleaseSwitchSound();
      }
    }

    /** The long-press action. */
    method SwitchModes()
      modifies this
      ensures Abs() == SwitchMode(old(Abs()))
    {
      StopAll();
      FlashLedsWhite(PaletteOf(mode));
      mode := Toggle(mode);
    }

    /** The long-press teardown before the flash. */
    method StopAll()
      modifies this
      ensures Abs() == TearDown(old(Abs()))
    {
      sink := Idle;
      switchNotes := None;
      switchPlayingMp3 := false;
      if mode == Xylophone && synth.Some? {
        // release_all, forget every key's voice, drop the synthesizer
        synth := None;
        activeNotes := map[];
      }
    }

    /** The short-press path of a key-15 release. */
    method ReleaseSwitchSound()
      requires SwitchNotesHaveSynth(Abs())
      modifies this
      ensures Abs() == ShortRelease(old(Abs()))
    {
      if mode == Xylophone && switchNotes.Some? {
        synth := Some(Synth(synth.value.held - multiset(switchNotes.value)));
        switchNotes := None;
      }
      switchPlayingMp3 := false;
    }

    /** The key-15 part of the `while True` body. */
    method HandleSwitchKey(current: bool, now: real, hw: Outcomes) returns (proceed: bool)
      requires SwitchNotesHaveSynth(Abs())
      modifies this
      ensures Phase(Abs(), proceed) == SwitchKeyPhase(old(Abs()), current, now, hw, decoderReady)
    {
      proceed := true;
      if current && !prevSwitch {
        proceed := PressSwitchKey(now, hw);
        if !proceed {
          return;
        }
      } else if !current && prevSwitch {
        ReleaseSwitchKey(now);
      }
      prevSwitch := current;
    }

    /** One pass of the `while True` body: key 15, then the current mode's
        handler for the other keys. */
    method Tick(pressed: Flags, now: real, hw: Outcomes)
      requires Valid()
      modifies this
      ensures Valid()
      ensures Abs() == TickSpec(old(Abs()), pressed, now, hw, decoderReady)
    {
      TickPreservesInv(Abs(), pressed, now, hw, decoderReady);
      var proceed := HandleSwitchKey(pressed[SwitchKey], now, hw);
      if !proceed {
        return;
      }
      if mode == AudioPlayer {
        RunAudioPlayerKeys(pressed, hw.playOk);
      } else {
        RunXylophoneKeys(pressed, hw);
      }
    }
  }
}
