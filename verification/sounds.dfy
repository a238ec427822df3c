/** The decision logic of the Animalese sound engine as values and functions:
    the character tables, the classification of a typed character, the tone
    descriptor (frequency, duration, pitch) each class is given, the clamps on
    pitch and volume, the sample path a sound resolves to, and one throttled
    play step over the engine's state. */
module Sounds {
  import opened Wrappers
  import opened Voices

  // ---------------------------------------------------------------------
  // Tables

  const Vowels: seq<string> := ["a", "e", "i", "o", "u"]
  const Consonants: seq<string> :=
    ["b", "c", "d", "f", "g", "h", "j", "k", "l", "m", "n", "p", "q", "r", "s", "t", "v", "w", "x", "y", "z"]
  const Numbers: seq<string> := ["1", "2", "3", "4", "5", "6", "7", "8", "9", "0"]
  /** The symbols that get a special sound. '!' is not among them. */
  const SpecialChars: seq<string> :=
    ["@", "#", "$", "%", "^", "&", "*", "(", ")", "-", "_", "+", "=", "[", "]", "{", "}",
     "\\", "|", ";", ":", "\"", "'", "<", ">", ",", ".", "/", "?", "~", "`"]

  const HardConsonants: seq<string> := ["k", "g", "t", "d", "p", "b"]
  /** Holds the two-letter "th", which no single character can equal. */
  const SoftConsonants: seq<string> := ["s", "f", "h", "th"]
  const Nasals: seq<string> := ["m", "n"]
  const Liquids: seq<string> := ["l", "r"]

  /** Note frequencies for the digits, in keyboard order 1..9 then 0 (C4 .. E5). */
  const NoteFrequencies: seq<real> :=
    [261.63, 293.66, 329.63, 349.23, 392.0, 440.0, 493.88, 523.25, 587.33, 659.25]

  /** Minimum spacing between two accepted characters, in milliseconds. */
  const PlaybackDelay: int := 50

  // ---------------------------------------------------------------------
  // Values

  /** A JavaScript number as the frequency computations produce it: NaN when
      the voice has no variant digit to parse. */
  datatype Number = Num(value: real) | NaN

  /** The tone descriptor the engine computes for a character. */
  datatype Tone = Tone(frequency: Number, duration: real, pitch: real)

  /** The sound type handed along with each tone. */
  datatype SoundType =
    | VowelSound | ConsonantSound | NoteSound | SpecialSound
    | ExclamationSound | QuestionSound | PeriodSound | CommaSound | SpaceSound

  /** What the classification of a typed character decides. */
  datatype CharClass =
    | Vowel(vowel: char, upper: bool)
    | Consonant(consonant: char, upper: bool)
    | Digit(digit: char)
    | Symbol(symbol: char)
    | Blank
    | Unrecognized

  /** The asset directories `loadAudioFiles` records. */
  datatype AudioDirs = AudioDirs(maleVoicesDir: string, femaleVoicesDir: string, sfxDir: string, vocalsDir: string)

  /** The engine's fields. `audioFiles` holds the directories loaded at start-up
      (None for the empty record left when the audio player could not be created). */
  datatype SoundsState = SoundsState(
    voice: string,
    pitch: real,
    volume: real,
    specialSounds: bool,
    lastPlayTime: int,
    currentCharacter: string,
    audioPlayer: bool,
    audioFiles: Option<AudioDirs>)

  /** The result of one typed character: dropped by the throttle, accepted
      without a sound, or played as a tone of a type together with the sample
      file handed to the audio player (None: the visual/bell fallback). */
  datatype Outcome =
    | Throttled
    | Silent
    | Played(kind: SoundType, tone: Tone, sample: Option<string>)

  // ---------------------------------------------------------------------
  // Settings

  /** `Math.max(0.5, Math.min(2.0, pitch))`. */
  function ClampPitch(p: real): (r: real)
    ensures 0.5 <= r <= 2.0
    ensures 0.5 <= p <= 2.0 ==> r == p
    ensures p < 0.5 ==> r == 0.5
    ensures p > 2.0 ==> r == 2.0
  {
    var m := if p < 2.0 then p else 2.0;
    if m > 0.5 then m else 0.5
  }

  /** `Math.max(0.0, Math.min(1.0, volume))`. */
  function ClampVolume(v: real): (r: real)
    ensures 0.0 <= r <= 1.0
    ensures 0.0 <= v <= 1.0 ==> r == v
    ensures v < 0.0 ==> r == 0.0
    ensures v > 1.0 ==> r == 1.0
  {
    var m := if v < 1.0 then v else 1.0;
    if m > 0.0 then m else 0.0
  }

  /** Both clamps are idempotent: clamping a stored value again leaves it as it is. */
  lemma ClampsIdempotent(p: real, v: real)
    ensures ClampPitch(ClampPitch(p)) == ClampPitch(p)
    ensures ClampVolume(ClampVolume(v)) == ClampVolume(v)
  {
  }

  // ---------------------------------------------------------------------
  // Classification

  /** The first matching test wins: vowel, consonant, digit, special symbol
      (only while special sounds are on), space; anything else is silent. */
  function Classify(c: char, specialSounds: bool): CharClass {
    var lower := Lower(c);
    if [lower] in Vowels then Vowel(lower, IsUpperForm(c))
    else if [lower] in Consonants then Consonant(lower, IsUpperForm(c))
    else if [c] in Numbers then Digit(c)
    else if [c] in SpecialChars && specialSounds then Symbol(c)
    else if c == ' ' then Blank
    else Unrecognized
  }

  /** The set of symbols behind `SpecialChars`. */
  const SymbolSet: set<char> :=
    {'@', '#', '$', '%', '^', '&', '*', '(', ')', '-', '_', '+', '=', '[', ']', '{', '}',
     '\\', '|', ';', ':', '"', '\'', '<', '>', ',', '.', '/', '?', '~', '`'}

  lemma VowelTable(l: char)
    ensures [l] in Vowels <==> l in {'a', 'e', 'i', 'o', 'u'}
  {
    if [l] in Vowels {
      var i :| 0 <= i < |Vowels| && Vowels[i] == [l];
      assert Vowels[i][0] == l;
    }
  }

  lemma ConsonantTable(l: char)
    ensures [l] in Consonants <==> 'a' <= l <= 'z' && l !in {'a', 'e', 'i', 'o', 'u'}
  {
    if [l] in Consonants {
      var i :| 0 <= i < |Consonants| && Consonants[i] == [l];
      assert Consonants[i][0] == l;
    }
    if 'a' <= l <= 'z' && l !in {'a', 'e', 'i', 'o', 'u'} {
      var i := ConsonantIndex(l);
      assert Consonants[i] == [l];
    }
  }

  /** The position of a consonant letter in `Consonants`. */
  function ConsonantIndex(l: char): (i: nat)
    requires 'a' <= l <= 'z' && l !in {'a', 'e', 'i', 'o', 'u'}
    ensures i < |Consonants| && Consonants[i] == [l]
  {
    var k := l as int - 'a' as int;
    if k < 4 then k - 1          // b c d
    else if k < 8 then k - 2     // f g h
    else if k < 14 then k - 3    // j k l m n
    else if k < 20 then k - 4    // p q r s t
    else k - 5                   // v w x y z
  }

  lemma NumberTable(c: char)
    ensures [c] in Numbers <==> '0' <= c <= '9'
  {
    if [c] in Numbers {
      var i :| 0 <= i < |Numbers| && Numbers[i] == [c];
      assert Numbers[i][0] == c;
    }
    if '0' <= c <= '9' {
      var i := DigitIndex(c);
      assert Numbers[i] == [c];
    }
  }

  lemma SymbolTable(c: char)
    ensures [c] in SpecialChars <==> c in SymbolSet
  {
    if [c] in SpecialChars {
      var i :| 0 <= i < |SpecialChars| && SpecialChars[i] == [c];
      assert SpecialChars[i][0] == c;
    }
    if c in SymbolSet {
      var i :| 0 <= i < |SpecialChars| && SpecialChars[i] == [c];
    }
  }

  /** Classification stated against character ranges instead of the tables:
      letters (either case, and the Kelvin sign) are vowels or consonants with
      their case flag, ASCII digits are digits, the special symbols sound only
      while special sounds are on, a space is a blank, and nothing else sounds. */
  lemma ClassifyByRanges(c: char, specialSounds: bool)
    ensures var l := Lower(c); var r := Classify(c, specialSounds);
      && (r.Vowel? <==> l in {'a', 'e', 'i', 'o', 'u'})
      && (r.Consonant? <==> 'a' <= l <= 'z' && l !in {'a', 'e', 'i', 'o', 'u'})
      && (r.Digit? <==> '0' <= c <= '9')
      && (r.Symbol? <==> c in SymbolSet && specialSounds)
      && (r.Blank? <==> c == ' ')
      && ((r.Vowel? || r.Consonant?) ==> r.upper == ('A' <= c <= 'Z' || c == KelvinSign))
      && (r.Vowel? ==> r.vowel == l)
      && (r.Consonant? ==> r.consonant == l)
      && (r.Digit? ==> r.digit == c)
      && (r.Symbol? ==> r.symbol == c)
  {
    var l := Lower(c);
    VowelTable(l);
    if l !in {'a', 'e', 'i', 'o', 'u'} {
      ConsonantTable(l);
      if !('a' <= l <= 'z') {
        NumberTable(c);
        if !('0' <= c <= '9') {
          SymbolTable(c);
        }
      }
    }
  }

  /** '!' is in none of the tables, so it never sounds, whatever the settings. */
  lemma ExclamationIsSilent(specialSounds: bool)
    ensures Classify('!', specialSounds) == Unrecognized
  {
    ClassifyByRanges('!', specialSounds);
  }

  /** With special sounds off, every special symbol is silent. */
  lemma SymbolsSilentWhenOff(c: char)
    requires [c] in SpecialChars
    ensures Classify(c, false) == Unrecognized
  {
    SymbolTable(c);
    SymbolsAreNotLettersDigitsOrSpace(c);
    ClassifyByRanges(c, false);
  }

  lemma SymbolsAreNotLettersDigitsOrSpace(c: char)
    requires c in SymbolSet
    ensures !('a' <= c <= 'z') && !('A' <= c <= 'Z') && !('0' <= c <= '9') && c != ' ' && c != KelvinSign
  {
  }

  /** An upper-case letter classifies as its lower-case letter with the case flag set. */
  lemma ClassifyIgnoresCase(c: char, specialSounds: bool)
    requires 'a' <= c <= 'z'
    ensures var u := (c as int - 32) as char;
      && Classify(u, specialSounds) == (match Classify(c, specialSounds)
           case Vowel(v, _) => Vowel(v, true)
           case Consonant(k, _) => Consonant(k, true)
           case other => other)
      && (Classify(c, specialSounds).Vowel? || Classify(c, specialSounds).Consonant?)
      && !Classify(c, specialSounds).upper
  {
    var u := (c as int - 32) as char;
    ClassifyByRanges(c, specialSounds);
    ClassifyByRanges(u, specialSounds);
  }

  // ---------------------------------------------------------------------
  // Frequencies and tones

  /** The vowel base table for one gender. */
  function VowelBase(isFemale: bool): map<char, real> {
    map['a' := if isFemale then 900.0 else 600.0,
        'e' := if isFemale then 800.0 else 500.0,
        'i' := if isFemale then 1000.0 else 700.0,
        'o' := if isFemale then 700.0 else 400.0,
        'u' := if isFemale then 600.0 else 300.0]
  }

  /** The vowel's base frequency plus 50 Hz per variant step. */
  function VowelFrequency(voice: string, vowel: char): Number
    requires [vowel] in Vowels
  {
    VowelTable(vowel);
    var base := VowelBase(IsFemale(voice));
    match VoiceNumber(voice)
    case None => NaN
    case Some(n) => Num(base[vowel] + ((n - 1) * 50) as real)
  }

  /** The group offset a consonant adds to the base frequency. */
  function ConsonantOffset(consonant: char): int {
    if [consonant] in HardConsonants then 100
    else if [consonant] in SoftConsonants then 200
    else if [consonant] in Nasals then -50
    else if [consonant] in Liquids then 50
    else 0
  }

  /** The consonant's base frequency (350 male, 500 female) plus its group
      offset plus 30 Hz per variant step. */
  function ConsonantFrequency(voice: string, consonant: char): Number {
    var base := if IsFemale(voice) then 500 else 350;
    var frequency := base + ConsonantOffset(consonant);
    match VoiceNumber(voice)
    case None => NaN
    case Some(n) => Num((frequency + (n - 1) * 30) as real)
  }

  /** The "th" entry of the soft group never matches: the soft group is
      exactly s, f and h. */
  lemma SoftGroupIsSingleLetters(c: char)
    ensures [c] in SoftConsonants <==> c in {'s', 'f', 'h'}
  {
    if [c] in SoftConsonants {
      var i :| 0 <= i < |SoftConsonants| && SoftConsonants[i] == [c];
      assert |SoftConsonants[i]| == 1;
      assert SoftConsonants[i][0] == c;
    }
    if c in {'s', 'f', 'h'} {
      assert SoftConsonants[if c == 's' then 0 else if c == 'f' then 1 else 2] == [c];
    }
  }

  /** The consonant groups by letter: +100 for the stops k g t d p b, +200
      for s f h, -50 for the nasals m n, +50 for the liquids l r, and 0 for
      every other consonant (c j q v w x y z). */
  lemma ConsonantOffsetGroups(c: char)
    requires [c] in Consonants
    ensures ConsonantOffset(c) == 100 <==> c in {'k', 'g', 't', 'd', 'p', 'b'}
    ensures ConsonantOffset(c) == 200 <==> c in {'s', 'f', 'h'}
    ensures ConsonantOffset(c) == -50 <==> c in {'m', 'n'}
    ensures ConsonantOffset(c) == 50 <==> c in {'l', 'r'}
    ensures ConsonantOffset(c) == 0 <==> c in {'c', 'j', 'q', 'v', 'w', 'x', 'y', 'z'}
  {
    ConsonantTable(c);
    SoftGroupIsSingleLetters(c);
    if [c] in HardConsonants {
      var i :| 0 <= i < |HardConsonants| && HardConsonants[i] == [c];
      assert HardConsonants[i][0] == c;
    }
    if [c] in Nasals {
      var i :| 0 <= i < |Nasals| && Nasals[i] == [c];
      assert Nasals[i][0] == c;
    }
    if [c] in Liquids {
      var i :| 0 <= i < |Liquids| && Liquids[i] == [c];
      assert Liquids[i][0] == c;
    }
  }

  /** The vowel frequency of a configured voice: the gender's table value
      plus (variant - 1) * 50. */
  lemma VowelFrequencyOfVoice(g: Gender, n: nat, v: char)
    requires n <= 9 && [v] in Vowels
    ensures VowelFrequency(VoiceName(g, n), v) ==
      Num((if g == Female then VowelBase(true)[v] else VowelBase(false)[v]) + ((n - 1) * 50) as real)
    ensures g == Female ==>
      (VowelFrequency(VoiceName(g, n), v).value == VowelFrequency(VoiceName(Male, n), v).value + 300.0)
  {
    VoiceNameParses(g, n);
    VoiceNameParses(Male, n);
    VowelTable(v);
  }

  /** The consonant frequency of a configured voice: 350 (male) or 500
      (female), plus the group offset, plus (variant - 1) * 30. */
  lemma ConsonantFrequencyOfVoice(g: Gender, n: nat, c: char)
    requires n <= 9
    ensures ConsonantFrequency(VoiceName(g, n), c) ==
      Num(((if g == Female then 500 else 350) + ConsonantOffset(c) + (n - 1) * 30) as real)
  {
    VoiceNameParses(g, n);
  }

  /** Each variant step raises every vowel by 50 Hz and every consonant by 30 Hz. */
  lemma VariantStep(g: Gender, n: nat, v: char, c: char)
    requires n < 9 && [v] in Vowels
    ensures VowelFrequency(VoiceName(g, n + 1), v).value == VowelFrequency(VoiceName(g, n), v).value + 50.0
    ensures ConsonantFrequency(VoiceName(g, n + 1), c).value == ConsonantFrequency(VoiceName(g, n), c).value + 30.0
  {
    VowelFrequencyOfVoice(g, n, v);
    VowelFrequencyOfVoice(g, n + 1, v);
    ConsonantFrequencyOfVoice(g, n, c);
    ConsonantFrequencyOfVoice(g, n + 1, c);
  }

  /** A vowel's tone: upper case is longer (0.15 s against 0.1 s) and pitched
      up by 1.2. */
  function VowelTone(voice: string, pitch: real, vowel: char, upper: bool): Tone
    requires [vowel] in Vowels
  {
    Tone(VowelFrequency(voice, vowel), if upper then 0.15 else 0.1, if upper then pitch * 1.2 else pitch)
  }

  /** A consonant's tone: upper case is longer (0.12 s against 0.08 s) and
      pitched up by 1.1. */
  function ConsonantTone(voice: string, pitch: real, consonant: char, upper: bool): Tone {
    Tone(ConsonantFrequency(voice, consonant), if upper then 0.12 else 0.08, if upper then pitch * 1.1 else pitch)
  }

  /** For any positive pitch, the upper-case form of a letter sounds longer
      and higher-pitched than the lower-case form, at the same frequency. */
  lemma UpperCaseIsLongerAndHigher(voice: string, pitch: real, v: char, c: char)
    requires pitch > 0.0 && [v] in Vowels
    ensures var up, low := VowelTone(voice, pitch, v, true), VowelTone(voice, pitch, v, false);
      up.frequency == low.frequency && up.duration > low.duration && up.pitch > low.pitch
    ensures var up, low := ConsonantTone(voice, pitch, c, true), ConsonantTone(voice, pitch, c, false);
      up.frequency == low.frequency && up.duration > low.duration && up.pitch > low.pitch
  {
  }

  /** `number === "0" ? 9 : parseInt(number) - 1`: the digits in keyboard
      order 1..9, 0 index the note table. */
  function DigitIndex(d: char): (i: nat)
    requires '0' <= d <= '9'
    ensures i < 10 && i == (d as int - '0' as int + 9) % 10
  {
    if d == '0' then 9 else d as int - '0' as int - 1
  }

  /** Different digits get different notes. */
  lemma DigitNotesDistinct(d1: char, d2: char)
    requires '0' <= d1 <= '9' && '0' <= d2 <= '9' && d1 != d2
    ensures DigitIndex(d1) != DigitIndex(d2)
    ensures NoteFrequencies[DigitIndex(d1)] != NoteFrequencies[DigitIndex(d2)]
  {
    var i, j := DigitIndex(d1), DigitIndex(d2);
    assert forall a, b :: 0 <= a < b < 10 ==> NoteFrequencies[a] < NoteFrequencies[b];
  }

  /** A digit's tone: its note, 0.2 s, at the unscaled pitch. */
  function DigitTone(pitch: real, d: char): Tone
    requires '0' <= d <= '9'
  {
    Tone(Num(NoteFrequencies[DigitIndex(d)]), 0.2, pitch)
  }

  /** '5' plays G4 and '0' plays E5; moving right along the number row raises the note. */
  lemma DigitNotes(pitch: real, d1: char, d2: char)
    requires '1' <= d1 < d2 <= '9'
    ensures DigitTone(pitch, '5').frequency == Num(392.0)
    ensures DigitTone(pitch, '0').frequency == Num(659.25)
    ensures DigitTone(pitch, d1).frequency.value < DigitTone(pitch, d2).frequency.value < DigitTone(pitch, '0').frequency.value
  {
    assert forall a, b :: 0 <= a < b < 10 ==> NoteFrequencies[a] < NoteFrequencies[b];
  }

  /** The special-symbol switch: the sound type and fixed frequency and
      duration per symbol, 500 Hz / 0.06 s for the rest, at the unscaled pitch. */
  function SpecialTone(pitch: real, c: char): (SoundType, Tone) {
    match c
    case '@' => (SpecialSound, Tone(Num(800.0), 0.1, pitch))
    case '#' => (SpecialSound, Tone(Num(600.0), 0.08, pitch))
    case '!' => (ExclamationSound, Tone(Num(1000.0), 0.15, pitch))
    case '?' => (QuestionSound, Tone(Num(400.0), 0.12, pitch))
    case '~' => (SpecialSound, Tone(Num(300.0), 0.2, pitch))
    case '.' => (PeriodSound, Tone(Num(200.0), 0.1, pitch))
    case ',' => (CommaSound, Tone(Num(250.0), 0.05, pitch))
    case _ => (SpecialSound, Tone(Num(500.0), 0.06, pitch))
  }

  /** The space tone: 150 Hz for a female voice, 100 Hz otherwise, 0.03 s,
      at half the pitch. */
  function SpaceTone(voice: string, pitch: real): Tone {
    Tone(Num(if IsFemale(voice) then 150.0 else 100.0), 0.03, pitch * 0.5)
  }

  /** The space tone of a configured voice: 150 Hz for the female voices and
      100 Hz for the male ones, 0.03 s, half the pitch. */
  lemma SpaceToneOfVoice(g: Gender, n: nat, pitch: real)
    requires n <= 9
    ensures SpaceTone(VoiceName(g, n), pitch) == Tone(Num(if g == Female then 150.0 else 100.0), 0.03, pitch * 0.5)
  {
    VoiceNameParses(g, n);
  }

  /** Every symbol that can reach the special path gets a tone with a finite
      frequency, a positive duration and the configured pitch, and never the
      exclamation type; the four named symbols of the switch keep their own
      sound type. */
  lemma SpecialTonesOfReachableSymbols(pitch: real, c: char)
    requires Classify(c, true).Symbol?
    ensures var (kind, t) := SpecialTone(pitch, c);
      && t.frequency.Num? && t.frequency.value >= 200.0 && t.duration > 0.0 && t.pitch == pitch
      && kind != ExclamationSound
      && (kind == QuestionSound <==> c == '?')
      && (kind == PeriodSound <==> c == '.')
      && (kind == CommaSound <==> c == ',')
  {
    ClassifyByRanges(c, true);
  }

  // ---------------------------------------------------------------------
  // Sample files

  /** `path.join` of two segments, as concatenation with '/'. */
  function Join(a: string, b: string): string {
    a + "/" + b
  }

  /** `loadAudioFiles`: the four asset directories under the extension path. */
  function LoadAudioFiles(extensionPath: string): AudioDirs {
    var audioDir := Join(Join(extensionPath, "assets"), "audio_wav");
    AudioDirs(Join(Join(audioDir, "animalese"), "male"),
              Join(Join(audioDir, "animalese"), "female"),
              Join(audioDir, "sfx"),
              Join(audioDir, "vocals"))
  }

  /** `getAudioFileForCharacter`: `<gender dir>/voice_<last char of voice>/<lower-cased character>.wav`,
      or None when the gender's directory was never loaded (or is empty). */
  function AudioFileForCharacter(audioFiles: Option<AudioDirs>, voice: string, character: string): Option<string> {
    var voiceNumber := LastChar(voice);
    var genderDir := match audioFiles
      case None => ""
      case Some(dirs) => if IsFemale(voice) then dirs.femaleVoicesDir else dirs.maleVoicesDir;
    if genderDir == "" then None
    else
      var voiceDir := Join(genderDir, "voice_" + voiceNumber);
      Some(Join(voiceDir, LowerString(character) + ".wav"))
  }

  /** With the directories loaded, a configured voice resolves a character to
      its gender's directory, the variant's sub-directory and the lower-cased
      character's .wav file. */
  lemma AudioFileOfVoice(extensionPath: string, g: Gender, n: nat, character: string)
    requires n <= 9
    ensures AudioFileForCharacter(Some(LoadAudioFiles(extensionPath)), VoiceName(g, n), character) ==
      Some(extensionPath + "/assets/audio_wav/animalese/" + (if g == Female then "female" else "male")
           + "/voice_" + [('0' as int + n) as char] + "/" + LowerString(character) + ".wav")
  {
    VoiceNameParses(g, n);
    var gender := if g == Female then "female" else "male";
    var dir := extensionPath + "/assets/audio_wav/animalese/" + gender;
    var d := [('0' as int + n) as char];
    GenderDirPath(extensionPath, g);
    VoiceFilePath(dir, d, LowerString(character));
  }

  /** The file path under a gender directory, written out. */
  lemma VoiceFilePath(dir: string, d: string, name: string)
    ensures Join(Join(dir, "voice_" + d), name + ".wav") == dir + "/voice_" + d + "/" + name + ".wav"
  {
    assert "/" + "voice_" == "/voice_";
  }

  /** The loaded directory of a gender's voices. */
  lemma GenderDirPath(extensionPath: string, g: Gender)
    ensures var dirs := LoadAudioFiles(extensionPath);
      (if g == Female then dirs.femaleVoicesDir else dirs.maleVoicesDir) ==
        extensionPath + "/assets/audio_wav/animalese/" + (if g == Female then "female" else "male")
  {
    var e := extensionPath;
    JoinOnto(e, "", "assets");
    assert "" + "/" + "assets" == "/assets";
    JoinOnto(e, "/assets", "audio_wav");
    assert "/assets" + "/" + "audio_wav" == "/assets/audio_wav";
    JoinOnto(e, "/assets/audio_wav", "animalese");
    assert "/assets/audio_wav" + "/" + "animalese" == "/assets/audio_wav/animalese";
    JoinOnto(e, "/assets/audio_wav/animalese", if g == Female then "female" else "male");
    assert "/assets/audio_wav/animalese" + "/" == "/assets/audio_wav/animalese/";
    assert e == e + "";
  }

  /** Joining onto a path written as a prefix and a tail. */
  lemma JoinOnto(prefix: string, tail: string, segment: string)
    ensures Join(prefix + tail, segment) == prefix + (tail + "/" + segment)
  {
  }

  /** For one voice, two characters share a sample file exactly when their
      lower-cased forms agree. */
  lemma AudioFilesDistinct(audioFiles: Option<AudioDirs>, voice: string, c1: string, c2: string)
    requires AudioFileForCharacter(audioFiles, voice, c1).Some?
    ensures AudioFileForCharacter(audioFiles, voice, c1) == AudioFileForCharacter(audioFiles, voice, c2)
      <==> LowerString(c1) == LowerString(c2)
  {
    var p1 := AudioFileForCharacter(audioFiles, voice, c1).value;
    var p2 := AudioFileForCharacter(audioFiles, voice, c2).value;
    var dirs := audioFiles.value;
    var prefix := Join(if IsFemale(voice) then dirs.femaleVoicesDir else dirs.maleVoicesDir, "voice_" + LastChar(voice)) + "/";
    assert p1 == prefix + (LowerString(c1) + ".wav");
    assert p2 == prefix + (LowerString(c2) + ".wav");
    if p1 == p2 {
      var l1, l2 := LowerString(c1) + ".wav", LowerString(c2) + ".wav";
      assert p1[|prefix|..] == l1;
      assert p2[|prefix|..] == l2;
      assert l1[..|l1| - 4] == LowerString(c1);
      assert l2[..|l2| - 4] == LowerString(c2);
    }
  }

  // ---------------------------------------------------------------------
  // One play step

  /** The sample `playAnimalseAudio` would hand to the player for the current
      character (or "a" when it is empty); None when there is no player or no
      directory for the voice, and the visual fallback is used instead. */
  function SampleFor(s: SoundsState): Option<string> {
    if !s.audioPlayer then None
    else AudioFileForCharacter(s.audioFiles, s.voice, if s.currentCharacter == "" then "a" else s.currentCharacter)
  }

  /** `playForCharacter` at time `now`: the new state and what was played. */
  function Play(s: SoundsState, c: char, now: int): (r: (SoundsState, Outcome))
    ensures now - s.lastPlayTime < PlaybackDelay ==> r == (s, Throttled)
    ensures now - s.lastPlayTime >= PlaybackDelay ==> r.0.lastPlayTime == now && r.1 != Throttled
    ensures r.0 == s.(lastPlayTime := r.0.lastPlayTime, currentCharacter := r.0.currentCharacter)
    ensures r.1 == Silent <==> now - s.lastPlayTime >= PlaybackDelay && Classify(c, s.specialSounds) == Unrecognized
    ensures r.0.currentCharacter != s.currentCharacter ==>
      var k := Classify(c, s.specialSounds); k.Vowel? || k.Consonant? || k.Digit?
  {
    if now - s.lastPlayTime < PlaybackDelay then (s, Throttled)
    else
      var s1 := s.(lastPlayTime := now);
      match Classify(c, s.specialSounds)
      case Vowel(v, upper) =>
        var s2 := s1.(currentCharacter := [v]);
        (s2, Played(VowelSound, VowelTone(s.voice, s.pitch, v, upper), SampleFor(s2)))
      case Consonant(k, upper) =>
        var s2 := s1.(currentCharacter := [k]);
        (s2, Played(ConsonantSound, ConsonantTone(s.voice, s.pitch, k, upper), SampleFor(s2)))
      case Digit(d) =>
        NumberTable(d);
        var s2 := s1.(currentCharacter := [d]);
        (s2, Played(NoteSound, DigitTone(s.pitch, d), SampleFor(s2)))
      case Symbol(x) =>
        var (kind, tone) := SpecialTone(s.pitch, x);
        (s1, Played(kind, tone, SampleFor(s1)))
      case Blank =>
        (s1, Played(SpaceSound, SpaceTone(s.voice, s.pitch), SampleFor(s1)))
      case Unrecognized =>
        (s1, Silent)
  }

  /** Plays `cs` in order, the k-th character at time `clock(k)`. */
  function PlayAll(s: SoundsState, cs: seq<char>, clock: nat -> int): SoundsState
    decreases |cs|
  {
    if cs == [] then s
    else Play(PlayAll(s, cs[..|cs| - 1], clock), cs[|cs| - 1], clock(|cs| - 1)).0
  }

  /** Playing one more character extends the run by one play step. */
  lemma PlayAllSnoc(s: SoundsState, cs: seq<char>, c: char, clock: nat -> int)
    ensures PlayAll(s, cs + [c], clock) == Play(PlayAll(s, cs, clock), c, clock(|cs|)).0
  {
    assert (cs + [c])[..|cs|] == cs;
  }

  /** Special symbols and spaces leave the current character alone, so their
      sample is the file of the last vowel, consonant or digit played. */
  lemma SymbolsAndSpacesReuseLastSample(s: SoundsState, c: char, now: int)
    requires now - s.lastPlayTime >= PlaybackDelay
    requires Classify(c, s.specialSounds).Symbol? || c == ' '
    ensures Play(s, c, now).0.currentCharacter == s.currentCharacter
    ensures Play(s, c, now).1.Played? && Play(s, c, now).1.sample == SampleFor(s)
  {
    ClassifyByRanges(c, s.specialSounds);
  }

  /** Letters and digits make their lower-cased form the current character,
      and their sample is that character's file. */
  lemma LettersAndDigitsSetCurrent(s: SoundsState, c: char, now: int)
    requires now - s.lastPlayTime >= PlaybackDelay
    requires var k := Classify(c, s.specialSounds); k.Vowel? || k.Consonant? || k.Digit?
    ensures Play(s, c, now).0.currentCharacter == [Lower(c)]
    ensures Play(s, c, now).1.Played? && Play(s, c, now).1.sample ==
      (if s.audioPlayer then AudioFileForCharacter(s.audioFiles, s.voice, [Lower(c)]) else None)
  {
    ClassifyByRanges(c, s.specialSounds);
  }

  /** The engine's state right after construction. */
  function InitialState(extensionPath: string, playerAvailable: bool): SoundsState {
    SoundsState("male1", 1.0, 0.5, true, 0, "a", playerAvailable,
                if playerAvailable then Some(LoadAudioFiles(extensionPath)) else None)
  }

  /** Typing 'A' with the voice male2 and the default pitch plays a vowel at
      650 Hz for 0.15 s at pitch 1.2, from male voice 2's "a.wav". */
  lemma UpperAWithMale2(extensionPath: string, now: int)
    requires now >= PlaybackDelay
    ensures var s := InitialState(extensionPath, true).(voice := "male2");
      Play(s, 'A', now).1 == Played(VowelSound, Tone(Num(650.0), 0.15, 1.2),
        Some(extensionPath + "/assets/audio_wav/animalese/male/voice_2/a.wav"))
  {
    var s := InitialState(extensionPath, true).(voice := "male2");
    assert VoiceName(Male, 2) == "male2";
    ClassifyByRanges('A', true);
    assert Classify('A', true) == Vowel('a', true);
    VowelFrequencyOfVoice(Male, 2, 'a');
    assert VowelTone("male2", 1.0, 'a', true) == Tone(Num(650.0), 0.15, 1.2);
    MaleSampleOfA(extensionPath, 2);
    assert extensionPath + "/assets/audio_wav/animalese/male/voice_" + "2" + "/a.wav" ==
      extensionPath + "/assets/audio_wav/animalese/male/voice_2/a.wav";
    assert SampleFor(s.(lastPlayTime := now, currentCharacter := "a")) ==
      Some(extensionPath + "/assets/audio_wav/animalese/male/voice_2/a.wav");
  }

  /** The "a" sample of a male voice. */
  lemma MaleSampleOfA(extensionPath: string, n: nat)
    requires n <= 9
    ensures AudioFileForCharacter(Some(LoadAudioFiles(extensionPath)), VoiceName(Male, n), "a") ==
      Some(extensionPath + "/assets/audio_wav/animalese/male/voice_" + [('0' as int + n) as char] + "/a.wav")
  {
    AudioFileOfVoice(extensionPath, Male, n, "a");
    assert LowerString("a") == "a";
    var d := [('0' as int + n) as char];
    assert extensionPath + "/assets/audio_wav/animalese/" + "male" + "/voice_" + d + "/" + "a" + ".wav" ==
      extensionPath + "/assets/audio_wav/animalese/male/voice_" + d + "/a.wav" by {
      assert "/assets/audio_wav/animalese/" + "male" + "/voice_" == "/assets/audio_wav/animalese/male/voice_";
      assert "/" + "a" + ".wav" == "/a.wav";
    }
  }

  /** A space typed before any letter resolves to the initial "a" sample of the voice. */
  lemma FirstSpaceUsesInitialA(extensionPath: string, now: int)
    requires now >= PlaybackDelay
    ensures Play(InitialState(extensionPath, true), ' ', now).1 ==
      Played(SpaceSound, Tone(Num(100.0), 0.03, 0.5),
        Some(extensionPath + "/assets/audio_wav/animalese/male/voice_1/a.wav"))
  {
    var s := InitialState(extensionPath, true);
    VoiceNameParses(Male, 1);
    assert VoiceName(Male, 1) == "male1";
    ClassifyByRanges(' ', true);
    assert Classify(' ', true) == Blank;
    MaleSampleOfA(extensionPath, 1);
    assert extensionPath + "/assets/audio_wav/animalese/male/voice_" + "1" + "/a.wav" ==
      extensionPath + "/assets/audio_wav/animalese/male/voice_1/a.wav";
    assert SampleFor(s.(lastPlayTime := now)) ==
      Some(extensionPath + "/assets/audio_wav/animalese/male/voice_1/a.wav");
  }

  /** Characters arriving within 50 ms of an accepted one are all dropped: if
      the first character of a burst is accepted and every later one comes
      less than 50 ms after it, only the first one plays. */
  lemma {:induction false} BurstPlaysOnlyFirst(s: SoundsState, cs: seq<char>, clock: nat -> int)
    requires |cs| >= 1
    requires clock(0) - s.lastPlayTime >= PlaybackDelay
    requires forall k :: 0 < k < |cs| ==> clock(k) < clock(0) + PlaybackDelay
    ensures PlayAll(s, cs, clock) == Play(s, cs[0], clock(0)).0
    decreases |cs|
  {
    if |cs| == 1 {
      assert cs[..0] == [];
    } else {
      var prefix := cs[..|cs| - 1];
      assert prefix[0] == cs[0];
      BurstPlaysOnlyFirst(s, prefix, clock);
      var mid := PlayAll(s, prefix, clock);
      assert mid.lastPlayTime == clock(0);
      assert clock(|cs| - 1) - mid.lastPlayTime < PlaybackDelay;
    }
  }
}
