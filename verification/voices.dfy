/** Characters and voice names as the sound engine reads them: JavaScript's
    case mapping on the characters that matter, the `includes("female")` test,
    and the variant number read from the last character of the voice string. */
module Voices {
  import opened Wrappers

  /** U+212A KELVIN SIGN, the one character outside A-Z that JavaScript's
      `toLowerCase` maps onto an ASCII letter ('k'). */
  const KelvinSign: char := '\U{212A}'

  /** `toLowerCase` of a one-character string, exact on every character whose
      lower-case form is an ASCII letter; every other character is returned as
      it is (its lower-case form never matches any of the engine's tables). */
  function Lower(c: char): (r: char)
    ensures 'a' <= r <= 'z' <==> 'a' <= c <= 'z' || 'A' <= c <= 'Z' || c == KelvinSign
    ensures 'a' <= c <= 'z' ==> r == c
  {
    if 'A' <= c <= 'Z' then (c as int + 32) as char
    else if c == KelvinSign then 'k'
    else c
  }

  /** `toLowerCase` of a string, character by character. */
  function LowerString(s: string): (r: string)
    ensures |r| == |s|
    ensures forall i :: 0 <= i < |s| ==> r[i] == Lower(s[i])
  {
    if s == [] then [] else [Lower(s[0])] + LowerString(s[1..])
  }

  /** `c === c.toUpperCase()`: false exactly for the lower-case letters. Exact
      for every character whose `Lower` is an ASCII letter, which are the only
      characters for which the engine asks. */
  predicate IsUpperForm(c: char) {
    !('a' <= c <= 'z')
  }

  /** `sub` occurs in `s` starting at index `i`. */
  predicate OccursAt(s: string, sub: string, i: int) {
    0 <= i && i + |sub| <= |s| && s[i..i + |sub|] == sub
  }

  /** `s.includes(sub)`. */
  predicate Contains(s: string, sub: string) {
    exists i :: 0 <= i <= |s| - |sub| && OccursAt(s, sub, i)
  }

  /** `voice.includes("female")`: the test every table uses to pick a gender. */
  predicate IsFemale(voice: string) {
    Contains(voice, "female")
  }

  /** `voice.slice(-1)`: the last character, or the empty string for an empty voice. */
  function LastChar(voice: string): (r: string)
    ensures |r| == if voice == [] then 0 else 1
    ensures voice != [] ==> voice == voice[..|voice| - 1] + r
  {
    if voice == [] then "" else [voice[|voice| - 1]]
  }

  /** `parseInt(voice.slice(-1))`: the variant number, or None where JavaScript
      yields NaN (an empty voice, or a last character that is not a digit). */
  function VoiceNumber(voice: string): (r: Option<int>)
    ensures r.Some? <==> voice != [] && '0' <= voice[|voice| - 1] <= '9'
    ensures r.Some? ==> 0 <= r.value <= 9 && LastChar(voice) == [('0' as int + r.value) as char]
  {
    if voice != [] && '0' <= voice[|voice| - 1] <= '9'
    then Some(voice[|voice| - 1] as int - '0' as int)
    else None
  }

  /** The two voice genders the settings offer. */
  datatype Gender = Male | Female

  /** The configured voice string for a gender and a variant, as the voice
      picker writes it ("male1" ... "female4"). */
  function VoiceName(g: Gender, n: nat): string
    requires n <= 9
  {
    (if g == Female then "female" else "male") + [('0' as int + n) as char]
  }

  /** A voice name reads back as the gender and variant it was built from:
      `includes("female")` recognises exactly the female voices, and the last
      character parses as the variant number. */
  lemma VoiceNameParses(g: Gender, n: nat)
    requires n <= 9
    ensures IsFemale(VoiceName(g, n)) <==> g == Female
    ensures VoiceNumber(VoiceName(g, n)) == Some(n)
    ensures LastChar(VoiceName(g, n)) == [('0' as int + n) as char]
  {
    var v := VoiceName(g, n);
    if g == Female {
      assert OccursAt(v, "female", 0);
    } else {
      assert |v| == 5;
    }
  }
}
