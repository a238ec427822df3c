/** The editor side: the enabled flag and the typing listener kept in step
    with it, the settings forwarded to the sound engine, and the filter that
    turns a document change into the characters handed to the engine. */
module Extension {
  import opened Wrappers
  import opened Sounds
  import opened Animalese

  /** One content change of a document-change event: the inserted text and
      the length of the range it replaced. */
  datatype ContentChange = ContentChange(text: string, rangeLength: int)

  /** The "animalese" configuration section; None where a key has no value,
      so the reader's default applies. */
  datatype Config = Config(
    enabled: Option<bool>,
    voice: Option<string>,
    pitch: Option<real>,
    volume: Option<real>,
    specialSounds: Option<bool>)

  /** Line breaks and tabs never sound. */
  predicate IsLineControl(c: char) {
    c == '\n' || c == '\r' || c == '\t'
  }

  /** The characters of an inserted text that are passed on, in order. */
  function Printable(text: string): seq<char>
    decreases |text|
  {
    if text == [] then []
    else
      var last := text[|text| - 1];
      Printable(text[..|text| - 1]) + (if IsLineControl(last) then [] else [last])
  }

  /** What one change contributes: only a pure insertion (non-empty text
      replacing an empty range) counts as typing. */
  function Inserted(change: ContentChange): seq<char> {
    if change.text != "" && change.rangeLength == 0 then Printable(change.text) else []
  }

  /** The characters an event's changes forward to the sound engine, in order. */
  function TypedCharacters(changes: seq<ContentChange>): seq<char>
    decreases |changes|
  {
    if changes == [] then []
    else TypedCharacters(changes[..|changes| - 1]) + Inserted(changes[|changes| - 1])
  }

  lemma TypedCharactersSnoc(changes: seq<ContentChange>, change: ContentChange)
    ensures TypedCharacters(changes + [change]) == TypedCharacters(changes) + Inserted(change)
  {
    assert (changes + [change])[..|changes|] == changes;
  }

  lemma TypedCharactersStep(changes: seq<ContentChange>, i: nat)
    requires i < |changes|
    ensures TypedCharacters(changes[..i + 1]) == TypedCharacters(changes[..i]) + Inserted(changes[i])
  {
    assert changes[..i + 1] == changes[..i] + [changes[i]];
    TypedCharactersSnoc(changes[..i], changes[i]);
  }

  lemma PrintableStep(text: string, j: nat)
    requires j < |text|
    ensures Printable(text[..j + 1]) == Printable(text[..j]) + (if IsLineControl(text[j]) then [] else [text[j]])
  {
    assert text[..j + 1][..j] == text[..j];
  }

  /** Nothing forwarded is a line break or a tab. */
  lemma {:induction false} PrintableHasNoLineControls(text: string)
    ensures forall k :: 0 <= k < |Printable(text)| ==> !IsLineControl(Printable(text)[k])
    decreases |text|
  {
    if text != [] {
      PrintableHasNoLineControls(text[..|text| - 1]);
    }
  }

  /** Text without line breaks or tabs is forwarded whole. */
  lemma {:induction false} PrintableKeepsPlainText(text: string)
    requires forall k :: 0 <= k < |text| ==> !IsLineControl(text[k])
    ensures Printable(text) == text
    decreases |text|
  {
    if text != [] {
      PrintableKeepsPlainText(text[..|text| - 1]);
      assert text == text[..|text| - 1] + [text[|text| - 1]];
    }
  }

  /** A character is forwarded exactly when it is not a line control and
      occurs in the text. */
  lemma {:induction false} PrintableMembers(text: string, c: char)
    ensures c in Printable(text) <==> c in text && !IsLineControl(c)
    decreases |text|
  {
    if text != [] {
      var init := text[..|text| - 1];
      PrintableMembers(init, c);
      assert text == init + [text[|text| - 1]];
    }
  }

  /** The filter distributes over the changes of an event. */
  lemma {:induction false} TypedCharactersAppend(a: seq<ContentChange>, b: seq<ContentChange>)
    ensures TypedCharacters(a + b) == TypedCharacters(a) + TypedCharacters(b)
    decreases |b|
  {
    if b == [] {
      assert a + b == a;
    } else {
      var init, last := b[..|b| - 1], b[|b| - 1];
      var x, y, z := TypedCharacters(a), TypedCharacters(init), Inserted(last);
      calc {
        TypedCharacters(a + b);
        { assert a + b == (a + init) + [last]; }
        TypedCharacters((a + init) + [last]);
        { TypedCharactersSnoc(a + init, last); }
        TypedCharacters(a + init) + z;
        { TypedCharactersAppend(a, init); }
        (x + y) + z;
        x + (y + z);
        { TypedCharactersSnoc(init, last); assert b == init + [last]; }
        x + TypedCharacters(b);
      }
    }
  }

  /** The change is a pure insertion whose text contains `c`. */
  predicate InsertsChar(change: ContentChange, c: char) {
    change.rangeLength == 0 && c in change.text
  }

  /** A character is forwarded exactly when some pure insertion of the event
      contains it and it is not a line control. */
  lemma {:induction false} TypedCharactersMembers(changes: seq<ContentChange>, c: char)
    ensures c in TypedCharacters(changes) <==>
      !IsLineControl(c) && exists i :: 0 <= i < |changes| && InsertsChar(changes[i], c)
    decreases |changes|
  {
    if changes != [] {
      var init, last := changes[..|changes| - 1], changes[|changes| - 1];
      assert changes == init + [last];
      TypedCharactersSnoc(init, last);
      TypedCharactersMembers(init, c);
      PrintableMembers(last.text, c);
      assert c in Inserted(last) <==> InsertsChar(last, c) && !IsLineControl(c);
      InsertsCharSplit(init, last, c);
    }
  }

  lemma InsertsCharSplit(init: seq<ContentChange>, last: ContentChange, c: char)
    ensures (exists i :: 0 <= i < |init + [last]| && InsertsChar((init + [last])[i], c)) <==>
      (exists i :: 0 <= i < |init| && InsertsChar(init[i], c)) || InsertsChar(last, c)
  {
    var changes := init + [last];
    if exists i :: 0 <= i < |changes| && InsertsChar(changes[i], c) {
      var i :| 0 <= i < |changes| && InsertsChar(changes[i], c);
      if i < |init| {
        assert init[i] == changes[i];
      }
    }
    if exists i :: 0 <= i < |init| && InsertsChar(init[i], c) {
      var i :| 0 <= i < |init| && InsertsChar(init[i], c);
      assert changes[i] == init[i];
    }
    assert changes[|init|] == last;
  }

  /** Deletions and replacements make no sound: an event none of whose
      changes is a pure insertion forwards nothing. */
  lemma {:induction false} ReplacementsAreSilent(changes: seq<ContentChange>)
    requires forall i :: 0 <= i < |changes| ==> changes[i].rangeLength != 0
    ensures TypedCharacters(changes) == []
    decreases |changes|
  {
    if changes != [] {
      ReplacementsAreSilent(changes[..|changes| - 1]);
    }
  }

  /** The extension's module-level state: the enabled flag, whether a typing
      listener is registered, and the sound engine. */
  class TypingExtension {
    var isEnabled: bool
    var listening: bool
    const sounds: AnimaleSounds

    /** The state before settings are loaded: enabled, no listener, a fresh engine. */
    constructor (extensionPath: string, playerAvailable: bool)
      ensures isEnabled && !listening
      ensures fresh(sounds) && sounds.State() == InitialState(extensionPath, playerAvailable)
    {
      isEnabled := true;
      listening := false;
      sounds := new AnimaleSounds(extensionPath, playerAvailable);
    }

    /** Registers the listener; with one already registered, changes nothing. */
    method StartListening()
      modifies this`listening
      ensures listening
      ensures old(listening) ==> unchanged(this)
    {
      if listening {
        return;
      }
      listening := true;
    }

    /** Disposes of the listener, if there is one. */
    method StopListening()
      modifies this`listening
      ensures !listening
      ensures !old(listening) ==> unchanged(this)
    {
      if listening {
        listening := false;
      }
    }

    /** Reads the settings (each missing one taking its default), forwards
        them through the engine's setters and brings the listener in line
        with the enabled flag. */
    method LoadSettings(config: Config)
      modifies this`isEnabled, this`listening, sounds`voice, sounds`pitch, sounds`volume, sounds`specialSounds
      ensures isEnabled == config.enabled.GetOr(true)
      ensures listening == isEnabled
      ensures sounds.State() == old(sounds.State()).(
        voice := config.voice.GetOr("male1"),
        pitch := ClampPitch(config.pitch.GetOr(1.0)),
        volume := ClampVolume(config.volume.GetOr(0.5)),
        specialSounds := config.specialSounds.GetOr(true))
      ensures 0.5 <= sounds.pitch <= 2.0 && 0.0 <= sounds.volume <= 1.0
    {
      isEnabled := config.enabled.GetOr(true);
      var voice := config.voice.GetOr("male1");
      var pitch := config.pitch.GetOr(1.0);
      var volume := config.volume.GetOr(0.5);
      var specialSounds := config.specialSounds.GetOr(true);

      sounds.SetVoice(voice);
      sounds.SetPitch(pitch);
      sounds.SetVolume(volume);
      sounds.SetSpecialSounds(specialSounds);

      if isEnabled && !listening {
        StartListening();
      } else if !isEnabled && listening {
        StopListening();
      }
    }

    /** The toggle command: flips the enabled flag and registers or disposes
        of the listener to match. */
    method Toggle()
      modifies this`isEnabled, this`listening
      ensures isEnabled == !old(isEnabled)
      ensures listening == isEnabled
    {
      isEnabled := !isEnabled;
      if isEnabled {
        StartListening();
      } else {
        StopListening();
      }
    }

    /** The listener's callback for one document-change event. `clock(k)` is
        the time at which the k-th forwarded character reaches the engine.
        The host invokes it only while the listener is registered. Returns
        the characters forwarded, in order. */
    method OnDidChangeTextDocument(changes: seq<ContentChange>, isActiveDocument: bool, clock: nat -> int)
      returns (forwarded: seq<char>)
      requires listening
      modifies sounds`lastPlayTime, sounds`currentCharacter
      ensures forwarded == if !isEnabled || |changes| == 0 || !isActiveDocument then [] else TypedCharacters(changes)
      ensures sounds.State() == PlayAll(old(sounds.State()), forwarded, clock)
    {
      forwarded := [];
      if !isEnabled || |changes| == 0 {
        return;
      }
      if !isActiveDocument {
        return;
      }
      forwarded := ForwardChanges(changes, clock);
    }

    /** The callback's outer loop over the changes of an event. */
    method ForwardChanges(changes: seq<ContentChange>, clock: nat -> int) returns (forwarded: seq<char>)
      modifies sounds`lastPlayTime, sounds`currentCharacter
      ensures forwarded == TypedCharacters(changes)
      ensures sounds.State() == PlayAll(old(sounds.State()), forwarded, clock)
    {
      forwarded := [];
      var i := 0;
      while i < |changes|
        invariant 0 <= i <= |changes|
        invariant forwarded == TypedCharacters(changes[..i])
        invariant sounds.State() == PlayAll(old(sounds.State()), forwarded, clock)
      {
        var change := changes[i];
        TypedCharactersStep(changes, i);
        if change.text != "" && change.rangeLength == 0 {
          forwarded := ForwardText(change.text, clock, old(sounds.State()), forwarded);
        }
        i := i + 1;
      }
      assert changes[..i] == changes;
    }

    /** The callback's inner loop: hands each character of an inserted text,
        except line breaks and tabs, to the engine, numbering the calls on
        from the `before` characters already forwarded in this event. */
    method ForwardText(text: string, clock: nat -> int, ghost s0: SoundsState, before: seq<char>)
      returns (forwarded: seq<char>)
      requires sounds.State() == PlayAll(s0, before, clock)
      modifies sounds`lastPlayTime, sounds`currentCharacter
      ensures forwarded == before + Printable(text)
      ensures sounds.State() == PlayAll(s0, forwarded, clock)
    {
      forwarded := before;
      var j := 0;
      while j < |text|
        invariant 0 <= j <= |text|
        invariant forwarded == before + Printable(text[..j])
        invariant sounds.State() == PlayAll(s0, forwarded, clock)
      {
        var c := text[j];
        PrintableStep(text, j);
        if !IsLineControl(c) {
          var _ := sounds.PlayForCharacter(c, clock(|forwarded|));
          PlayAllSnoc(s0, forwarded, c, clock);
          forwarded := forwarded + [c];
        }
        j := j + 1;
      }
      assert text[..j] == text;
    }
  }
}
