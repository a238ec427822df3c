/** The Animalese sound engine as an object: its settings, the throttle
    timestamp and the character whose sample is played. Every method is
    proved against the value-level functions of module Sounds. */
module Animalese {
  import opened Wrappers
  import opened Voices
  import opened Sounds

  class AnimaleSounds {
    var extensionPath: string
    var voice: string
    var pitch: real
    var volume: real
    var specialSounds: bool
    var lastPlayTime: int
    /** Whether the external audio player could be created. */
    var audioPlayer: bool
    var audioFiles: Option<AudioDirs>
    var currentCharacter: string

    /** The engine's fields as a value. */
    function State(): SoundsState
      reads this
    {
      SoundsState(voice, pitch, volume, specialSounds, lastPlayTime, currentCharacter, audioPlayer, audioFiles)
    }

    /** Field defaults; when the audio player can be created (`playerAvailable`)
        the asset directories under `extensionPath` are recorded, otherwise
        both stay empty. */
    constructor (extensionPath: string, playerAvailable: bool)
      ensures State() == InitialState(extensionPath, playerAvailable)
      ensures this.extensionPath == extensionPath
    {
      this.extensionPath := extensionPath;
      voice := "male1";
      pitch := 1.0;
      volume := 0.5;
      specialSounds := true;
      lastPlayTime := 0;
      currentCharacter := "a";
      audioPlayer := playerAvailable;
      audioFiles := if playerAvailable then Some(LoadAudioFiles(extensionPath)) else None;
    }

    method SetVoice(voice: string)
      modifies this`voice
      ensures State() == old(State()).(voice := voice)
    {
      this.voice := voice;
    }

    /** Stores the pitch clamped to [0.5, 2.0]. */
    method SetPitch(pitch: real)
      modifies this`pitch
      ensures State() == old(State()).(pitch := ClampPitch(pitch))
      ensures 0.5 <= this.pitch <= 2.0
    {
      this.pitch := ClampPitch(pitch);
    }

    /** Stores the volume clamped to [0, 1]. */
    method SetVolume(volume: real)
      modifies this`volume
      ensures State() == old(State()).(volume := ClampVolume(volume))
      ensures 0.0 <= this.volume <= 1.0
    {
      this.volume := ClampVolume(volume);
    }

    method SetSpecialSounds(enabled: bool)
      modifies this`specialSounds
      ensures State() == old(State()).(specialSounds := enabled)
    {
      specialSounds := enabled;
    }

    /** Handles one typed character at time `now`: drops it when it comes
        within the playback delay of the last accepted one, otherwise records
        the time and plays the sound of its class. */
    method PlayForCharacter(c: char, now: int) returns (outcome: Outcome)
      modifies this`lastPlayTime, this`currentCharacter
      ensures (State(), outcome) == Play(old(State()), c, now)
    {
      if now - lastPlayTime < PlaybackDelay {
        return Throttled;
      }
      lastPlayTime := now;

      var lowerChar := Lower(c);
      if [lowerChar] in Vowels {
        outcome := PlayVowelSound(lowerChar, IsUpperForm(c));
      } else if [lowerChar] in Consonants {
        outcome := PlayConsonantSound(lowerChar, IsUpperForm(c));
      } else if [c] in Numbers {
        NumberTable(c);
        outcome := PlayNumberSound(c);
      } else if [c] in SpecialChars && specialSounds {
        outcome := PlaySpecialSound(c);
      } else if c == ' ' {
        outcome := PlaySpaceSound();
      } else {
        outcome := Silent;
      }
    }

    method PlayVowelSound(vowel: char, isUpperCase: bool) returns (outcome: Outcome)
      requires [vowel] in Vowels
      modifies this`currentCharacter
      ensures State() == old(State()).(currentCharacter := [vowel])
      ensures outcome == Played(VowelSound, VowelTone(voice, pitch, vowel, isUpperCase), SampleFor(State()))
    {
      currentCharacter := [vowel];
      var frequency := VowelFrequency(voice, vowel);
      var duration := if isUpperCase then 0.15 else 0.1;
      var tonePitch := if isUpperCase then pitch * 1.2 else pitch;
      outcome := PlayTone(frequency, duration, tonePitch, VowelSound);
    }

    method PlayConsonantSound(consonant: char, isUpperCase: bool) returns (outcome: Outcome)
      modifies this`currentCharacter
      ensures State() == old(State()).(currentCharacter := [consonant])
      ensures outcome == Played(ConsonantSound, ConsonantTone(voice, pitch, consonant, isUpperCase), SampleFor(State()))
    {
      currentCharacter := [consonant];
      var frequency := ConsonantFrequency(voice, consonant);
      var duration := if isUpperCase then 0.12 else 0.08;
      var tonePitch := if isUpperCase then pitch * 1.1 else pitch;
      outcome := PlayTone(frequency, duration, tonePitch, ConsonantSound);
    }

    method PlayNumberSound(number: char) returns (outcome: Outcome)
      requires '0' <= number <= '9'
      modifies this`currentCharacter
      ensures State() == old(State()).(currentCharacter := [number])
      ensures outcome == Played(NoteSound, DigitTone(pitch, number), SampleFor(State()))
    {
      currentCharacter := [number];
      var index := DigitIndex(number);
      var frequency := NoteFrequencies[index];
      outcome := PlayTone(Num(frequency), 0.2, pitch, NoteSound);
    }

    method PlaySpecialSound(c: char) returns (outcome: Outcome)
      ensures outcome == Played(SpecialTone(pitch, c).0, SpecialTone(pitch, c).1, SampleFor(State()))
    {
      var (soundType, tone) := SpecialTone(pitch, c);
      outcome := PlayTone(tone.frequency, tone.duration, tone.pitch, soundType);
    }

    method PlaySpaceSound() returns (outcome: Outcome)
      ensures outcome == Played(SpaceSound, SpaceTone(voice, pitch), SampleFor(State()))
    {
      var frequency := if IsFemale(voice) then 150.0 else 100.0;
      outcome := PlayTone(Num(frequency), 0.03, pitch * 0.5, SpaceSound);
    }

    /** Returns the computed tone together with the sample the player is
        handed (None: the visual fallback). */
    method PlayTone(frequency: Number, duration: real, pitch: real, soundType: SoundType) returns (outcome: Outcome)
      ensures outcome == Played(soundType, Tone(frequency, duration, pitch), SampleFor(State()))
    {
      var sample := PlayAnimalseAudio();
      outcome := Played(soundType, Tone(frequency, duration, pitch), sample);
    }

    /** The sample file handed to the player: none without a player or without
        a directory for the voice, otherwise the file of the current character
        ("a" when it is empty). */
    method PlayAnimalseAudio() returns (sample: Option<string>)
      ensures sample.Some? <==> audioPlayer && AudioFileForCharacter(audioFiles, voice, "a").Some?
      ensures sample == SampleFor(State())
    {
      if !audioPlayer {
        return None;
      }
      var character := if currentCharacter == "" then "a" else currentCharacter;
      sample := AudioFileForCharacter(audioFiles, voice, character);
    }
  }
}
