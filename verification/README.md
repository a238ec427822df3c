# Animalese typing — a Dafny model of the sound engine and the typing listener

This project models the core of the "Animalese Typing" editor extension:

- the `AnimaleSounds` engine of `src/animalese.ts`. For each typed
  character it throttles rapid typing to one character every 50 ms, then
  classifies the character: vowel, consonant, digit, special symbol (only
  while special sounds are on), space or nothing. It computes the tone of
  that class from fixed tables that depend on the voice's gender and variant
  number, and it resolves the `.wav` sample handed to the audio player from
  the `currentCharacter` field. It also clamps the pitch and volume settings.
- the listener state machine of `src/extension.ts`: the enabled flag, the
  typing listener kept in step with it by `loadSettings` and the toggle
  command, and the document-change handler that filters content changes
  down to the ordered characters handed to the engine.

Layout:

- `wrappers.dfy` (module `Wrappers`) holds `Option`.
- `voices.dfy` (module `Voices`) holds the character and voice-string
  primitives:
  - `toLowerCase` on the characters that matter;
  - `includes("female")`;
  - `slice(-1)` and `parseInt` of the variant digit;
  - the voice names "male1" … "female4".
- `sounds.dfy` (module `Sounds`) holds the pure logic:
  - the tables and the clamps;
  - the classification and the tone descriptors;
  - the sample path;
  - the engine's fields as a value (`SoundsState`) and one typed character
    as a step on that value (`Play`, and `PlayAll` for a run of
    characters).
- `animalese.dfy` (module `Animalese`) holds class `AnimaleSounds`. It has
  the engine's fields, and its methods update them in place. Each method is
  proved against the functions of `Sounds`.
- `extension.dfy` (module `Extension`) holds the change filter as functions
  and class `TypingExtension`, which holds the module-level state of
  `src/extension.ts`.
  - Its handler is proved to forward exactly the filtered characters.
  - It is proved to leave the engine in the state `PlayAll` gives for them.

Modelling choices:

- **Time.** `Date.now()` becomes a parameter.
  - `PlayForCharacter` takes `now`.
  - The document-change handler takes `clock`, where `clock(k)` is the
    time at which the k-th forwarded character reaches the engine.
- **Listener.** The typing listener is a boolean, `listening`.
- **Content changes.** A content change is a `(text, rangeLength)` pair.
  Whether the event's document is the active editor's document is a
  boolean parameter.
- **Frequencies.** A frequency is a `Number`: a real, or `NaN`. `NaN` is
  what JavaScript computes when the last character of the voice string is
  not a digit.
- **Sample decision.** `playTone` ignores the tone it computes. The model
  returns that tone in an `Outcome`, together with the sample file
  `playAnimalseAudio` would hand to the player. `None` stands for the
  visual fallback.
- **Audio player.** Whether the audio player could be created is a
  constructor parameter (`playerAvailable`). Without a player,
  `audioFiles` stays empty (`None`), as after a failed `initializeAudio`.
- **`path.join`.** It is concatenation with `/`.

Quirks of the code that the model keeps:

- `'!'` is not in `specialChars`, so the `'!'` case of the special-symbol
  switch is unreachable.
- `"th"` in the soft consonant group never matches a single character.
- Special symbols and spaces do not update `currentCharacter`. They
  therefore play the sample of the last vowel, consonant or digit, which is
  "a" initially.

`loadAudioFiles` also records `sfxDir` and `vocalsDir`
(src/animalese.ts:105-106), but nothing reads them. Every sound, including
the special symbols, resolves to the voice sample of `currentCharacter`
(src/animalese.ts:341, 391-404).

## Model

| member | source | states |
|---|---|---|
| Voices.Lower | src/animalese.ts:149 | `toLowerCase` of one character yields an ASCII lower-case letter exactly for a-z, A-Z and the Kelvin sign, and leaves a-z as they are |
| Voices.LowerString | src/animalese.ts:400 | the lower-cased file name has the character's length and lower-cases each position |
| Voices.LastChar | src/animalese.ts:392 | `slice(-1)` is empty for an empty voice, otherwise the one character that completes the voice |
| Voices.VoiceNumber | src/animalese.ts:282 | `parseInt(slice(-1))` is a number exactly when the voice ends in a digit, and the number is that digit (0..9) |
| Voices.VoiceNameParses | src/extension.ts:43-52 | every voice name the picker offers is recognised as female exactly when it is a female voice, and its last character parses back as its variant |
| Sounds.ClampPitch | src/animalese.ts:120-122 | the stored pitch lies in [0.5, 2.0]; it is the input when that is in range, and the nearer bound otherwise |
| Sounds.ClampVolume | src/animalese.ts:127-129 | the stored volume lies in [0, 1]; it is the input when that is in range, and the nearer bound otherwise |
| Sounds.ClampsIdempotent | src/animalese.ts:120-129 | clamping a clamped pitch or volume again changes nothing |
| Sounds.VowelTable | src/animalese.ts:21 | a one-character string is in the vowel table exactly for a, e, i, o, u |
| Sounds.ConsonantTable | src/animalese.ts:22-44 | a one-character string is in the consonant table exactly for the other 21 letters a-z |
| Sounds.ConsonantIndex | src/animalese.ts:22-44 | every consonant letter has its position in the consonant table |
| Sounds.NumberTable | src/animalese.ts:45 | a one-character string is in the number table exactly for the ASCII digits |
| Sounds.SymbolTable | src/animalese.ts:46-78 | a one-character string is in the special table exactly for the 31 listed symbols ('!' not among them) |
| Sounds.ClassifyByRanges | src/animalese.ts:149-161 | the first-match classification, stated by character ranges: vowel and consonant letters in either case with their case flag, digits, symbols only while special sounds are on, the space, and nothing else; each class carries the character it matched |
| Sounds.ExclamationIsSilent | src/animalese.ts:228-232 | '!' never reaches the special switch, so its case is dead and '!' is silent whatever the settings |
| Sounds.SymbolsSilentWhenOff | src/animalese.ts:157-158 | with special sounds off, every listed symbol is silent |
| Sounds.ClassifyIgnoresCase | src/animalese.ts:149-154 | an upper-case letter classifies as its lower-case letter with the upper-case flag set; a lower-case letter has the flag clear |
| Sounds.SoftGroupIsSingleLetters | src/animalese.ts:297 | the soft group matches exactly s, f and h: its "th" entry never matches |
| Sounds.ConsonantOffsetGroups | src/animalese.ts:296-311 | per consonant: +100 exactly for k g t d p b, +200 exactly for s f h, -50 exactly for m n, +50 exactly for l r, 0 exactly for c j q v w x y z |
| Sounds.VowelFrequencyOfVoice | src/animalese.ts:271-286 | a vowel of a configured voice sounds at the gender's table value (male 600/500/700/400/300, female 900/800/1000/700/600) plus (variant - 1) * 50; a female voice is 300 Hz above the male voice of the same variant |
| Sounds.ConsonantFrequencyOfVoice | src/animalese.ts:291-318 | a consonant of a configured voice sounds at 350 (male) or 500 (female), plus its group offset, plus (variant - 1) * 30 |
| Sounds.VariantStep | src/animalese.ts:281-317 | one variant step raises every vowel by 50 Hz and every consonant by 30 Hz |
| Sounds.UpperCaseIsLongerAndHigher | src/animalese.ts:167-186 | at any positive pitch, an upper-case vowel or consonant keeps the frequency and sounds longer and higher than the lower-case one |
| Sounds.DigitIndex | src/animalese.ts:206 | the note index of a digit is below 10; it is 9 for '0' and digit - 1 otherwise |
| Sounds.DigitNotesDistinct | src/animalese.ts:193-207 | different digits get different notes |
| Sounds.DigitNotes | src/animalese.ts:193-208 | '5' plays 392.0 Hz and '0' plays 659.25 Hz; the notes rise along the number row 1..9, 0 |
| Sounds.SpaceToneOfVoice | src/animalese.ts:263-266 | the space of a configured voice plays 150 Hz for female voices and 100 Hz for male ones, 0.03 s, at half the pitch |
| Sounds.SpecialTonesOfReachableSymbols | src/animalese.ts:214-258 | every symbol that reaches the switch gets a real frequency of at least 200 Hz, a positive duration and the unscaled pitch; it never gets the exclamation type; '?', '.' and ',' get their own types and only they |
| Sounds.GenderDirPath | src/animalese.ts:100-108 | the loaded male and female directories are `<extension>/assets/audio_wav/animalese/male` and `/female` |
| Sounds.AudioFileOfVoice | src/animalese.ts:391-404 | with the directories loaded, a configured voice resolves a character to `<gender dir>/voice_<variant>/<lower-cased character>.wav` |
| Sounds.AudioFilesDistinct | src/animalese.ts:399-401 | for one voice, two characters share a sample file exactly when their lower-cased forms agree |
| Sounds.Play | src/animalese.ts:141-162 | a character within 50 ms of the last accepted one changes nothing; otherwise the time is recorded; only the time and the current character change; nothing sounds exactly when the character is unrecognised; only letters and digits move the current character |
| Sounds.SymbolsAndSpacesReuseLastSample | src/animalese.ts:214-266 | a played symbol or space leaves the current character as it was, and its sample is the one of the previous state |
| Sounds.LettersAndDigitsSetCurrent | src/animalese.ts:167-192 | a played letter or digit becomes the current character in lower case, and its sample is that character's file |
| Sounds.UpperAWithMale2 | src/animalese.ts:167-174 | 'A' with voice male2 at the default pitch plays a vowel at 650 Hz for 0.15 s at pitch 1.2, from `male/voice_2/a.wav` |
| Sounds.FirstSpaceUsesInitialA | src/animalese.ts:18 | a space typed before any letter plays 100 Hz for 0.03 s at pitch 0.5 and uses the initial "a" sample of voice male1 |
| Sounds.BurstPlaysOnlyFirst | src/animalese.ts:143-147 | in a burst whose first character is accepted and whose later characters all arrive within 50 ms of it, only the first character plays |
| Animalese.AnimaleSounds.constructor | src/animalese.ts:10-18 | a new engine has voice "male1", pitch 1.0, volume 0.5, special sounds on, last play time 0 and current character "a"; the asset directories are loaded when the player exists |
| Animalese.AnimaleSounds.SetVoice | src/animalese.ts:113-115 | stores the voice and changes nothing else |
| Animalese.AnimaleSounds.SetPitch | src/animalese.ts:120-122 | stores the clamped pitch, which lies in [0.5, 2.0], and changes nothing else |
| Animalese.AnimaleSounds.SetVolume | src/animalese.ts:127-129 | stores the clamped volume, which lies in [0, 1], and changes nothing else |
| Animalese.AnimaleSounds.SetSpecialSounds | src/animalese.ts:134-136 | stores the flag and changes nothing else |
| Animalese.AnimaleSounds.PlayForCharacter | src/animalese.ts:141-162 | the new fields and the outcome are exactly one `Play` step from the old fields |
| Animalese.AnimaleSounds.PlayVowelSound | src/animalese.ts:167-174 | records the vowel as current character and plays its vowel tone with that character's sample |
| Animalese.AnimaleSounds.PlayConsonantSound | src/animalese.ts:179-186 | records the consonant as current character and plays its consonant tone with that character's sample |
| Animalese.AnimaleSounds.PlayNumberSound | src/animalese.ts:191-209 | records the digit as current character and plays its note for 0.2 s with that character's sample |
| Animalese.AnimaleSounds.PlaySpecialSound | src/animalese.ts:214-258 | plays the switch's sound type and tone with the sample of the unchanged current character |
| Animalese.AnimaleSounds.PlaySpaceSound | src/animalese.ts:263-266 | plays the space tone of the voice with the sample of the unchanged current character |
| Animalese.AnimaleSounds.PlayTone | src/animalese.ts:323-347 | returns the tone it was given, with the current sample or the fallback |
| Animalese.AnimaleSounds.PlayAnimalseAudio | src/animalese.ts:352-386 | a sample is played exactly when there is a player and the voice's gender directory is loaded; it is the file of the current character, "a" when that is empty |
| Extension.PrintableHasNoLineControls | src/extension.ts:174-177 | no forwarded character is a line feed, carriage return or tab |
| Extension.PrintableKeepsPlainText | src/extension.ts:174-177 | a text without line feeds, carriage returns and tabs is forwarded whole and in order |
| Extension.PrintableMembers | src/extension.ts:174-177 | a character is forwarded exactly when it occurs in the text and is not a line control |
| Extension.TypedCharactersAppend | src/extension.ts:171-180 | the characters forwarded for two runs of changes are those of the first run followed by those of the second |
| Extension.TypedCharactersMembers | src/extension.ts:171-179 | a character is forwarded exactly when some pure insertion (empty replaced range) contains it and it is not a line control |
| Extension.ReplacementsAreSilent | src/extension.ts:172 | an event in which every change replaces a non-empty range forwards nothing |
| Extension.TypingExtension.constructor | src/extension.ts:4-6 | the extension starts enabled, with no listener and a fresh engine in its initial state |
| Extension.TypingExtension.StartListening | src/extension.ts:155-158 | afterwards a listener exists; with one already there nothing changes |
| Extension.TypingExtension.StopListening | src/extension.ts:187-192 | afterwards no listener exists; with none there nothing changes |
| Extension.TypingExtension.LoadSettings | src/extension.ts:131-150 | missing settings take their defaults (enabled, "male1", 1.0, 0.5, special sounds on); they are forwarded through the setters, so pitch and volume are clamped; afterwards a listener exists exactly when enabled |
| Extension.TypingExtension.Toggle | src/extension.ts:23-31 | flips the enabled flag; afterwards a listener exists exactly when enabled |
| Extension.TypingExtension.OnDidChangeTextDocument | src/extension.ts:160-181 | called only while the listener is registered; forwards nothing when disabled, when the event has no changes or when the document is not the active one; otherwise forwards exactly the filtered characters, in order, and leaves the engine in the state of playing them one after the other |
| Extension.TypingExtension.ForwardChanges | src/extension.ts:171-180 | the loop over the changes forwards the filtered characters of every pure insertion, in order, and plays each of them |
| Extension.TypingExtension.ForwardText | src/extension.ts:174-178 | the loop over one inserted text forwards its characters other than line controls, in order, and plays each of them |

## Left out

- Audio output is not modelled. This covers the `play-sound` call and its
  callback, the status-bar and terminal-bell feedback, and the debug
  logging. They are I/O and a foreign library. The model stops at the
  sample file handed to the player.
- The tone synthesis methods are not modelled: `tryWebAudioMethod`,
  `tryNodeAudioMethod`, `generateAndPlayTone` and `playAudioBuffer`.
  `playTone` never calls them, and they work on floating-point samples.
- `initializeAudio` is not modelled. Whether the player could be created is
  the `playerAvailable` parameter.
- `dispose` is not modelled, because it is foreign-library teardown.
- `Date.now()` is not modelled. Time is a parameter: `now`, or `clock`.
- The errors of the player are not modelled. These are a throwing
  `play` call and a failing callback.
- The vscode glue of `src/extension.ts` is not modelled:
  - command registration;
  - the voice quick pick and the welcome message;
  - global state;
  - reading and writing the configuration;
  - `activate` and `deactivate`.
  `LoadSettings` takes the configuration values as a `Config` record.
- `path.join` normalisation is not modelled. Joining is concatenation with
  `/`, so `..` segments, doubled separators and Windows separators are not
  handled.
- Voices.Lower: exact only where the result is an ASCII letter, which is
  A-Z and the Kelvin sign. Every other character is returned unchanged,
  whereas JavaScript lower-cases letters such as 'À'. The classification is
  unaffected, because no such lower-case form is in any table. A sample
  file name built from such a character would differ.
- Voices.VoiceNumber: models `parseInt` of one character only. That is the
  only way the source uses it.
- Sounds.ClampPitch: a NaN pitch is not modelled, because the settings
  carry real numbers. `Math.min` and `Math.max` would store NaN.
- Sounds.ClampVolume: a NaN volume is not modelled, for the same reason as
  ClampPitch.
- Extension.TypingExtension.OnDidChangeTextDocument: the two nested loops of the
  listener callback are written as two helper methods,
  `ForwardChanges` and `ForwardText`. This keeps each proof small; the
  order of the calls is unchanged.
- Extension.TypingExtension.ForwardText: iterates over the Unicode scalar values
  of the text. This is what `for … of` does on a well-formed JavaScript
  string. Lone surrogates are not modelled.
