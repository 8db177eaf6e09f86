/**
 * The keyboard state tracker and the note resolver: key presses and
 * releases update a record of held keys and press order, and the resolver
 * picks the note of the most recently pressed scale key still held, as long
 * as a voice key is held as well.
 */
module ScaleDecision {
  import opened Wrappers
  import opened NoteFrequencies
  import opened Sequences
  import KeyTypes

  /** Milliseconds, as `Date.now()` gives them; the clock itself is a parameter. */
  type Timestamp = int

  datatype KeyboardState = KeyboardState(
    pressedKeys: set<string>,
    keyPressOrder: seq<string>,          // oldest first, most recent last
    lastVoiceKeyPressTime: Option<Timestamp>,
    lastScaleKeyPressTime: Option<Timestamp>)

  datatype AudioState = AudioState(currentlyPlayingNote: Option<NoteName>)

  /** Declared by the configuration but never consulted. */
  datatype PriorityStrategy = LastPressed | VoiceKeyPriority

  datatype ScaleDecisionConfig = ScaleDecisionConfig(
    voiceKeys: seq<string>,
    scaleKeyMapping: map<string, NoteName>,
    priorityStrategy: Option<PriorityStrategy>)

  /** The decision; the diagnostic `reason` text is not modelled. */
  datatype ScaleDecisionResult = ScaleDecisionResult(
    shouldPlay: bool,
    noteToPlay: Option<NoteName>,
    newAudioState: AudioState)

  datatype KeyAction = Press | Release

  /** Some voice key of the configuration is held. */
  predicate IsVoiceKeyPressed(pressedKeys: set<string>, config: ScaleDecisionConfig)
  {
    exists i :: 0 <= i < |config.voiceKeys| && config.voiceKeys[i] in pressedKeys
  }

  /** A key the resolver may pick: mapped to a note and currently held. */
  predicate IsHeldScaleKey(key: string, pressedKeys: set<string>, config: ScaleDecisionConfig)
  {
    key in config.scaleKeyMapping && key in pressedKeys
  }

  /**
   * The position of the last entry of `order` that is a held scale key, the
   * one `[...order].reverse().find(...)` returns.
   */
  function LatestHeldScaleKeyIndex(order: seq<string>, pressedKeys: set<string>, config: ScaleDecisionConfig)
    : (r: Option<nat>)
    ensures r.None? <==> forall i :: 0 <= i < |order| ==> !IsHeldScaleKey(order[i], pressedKeys, config)
    ensures r.Some? ==>
      && r.value < |order|
      && IsHeldScaleKey(order[r.value], pressedKeys, config)
      && forall j :: r.value < j < |order| ==> !IsHeldScaleKey(order[j], pressedKeys, config)
    decreases |order|
  {
    if order == [] then None
    else if IsHeldScaleKey(order[|order| - 1], pressedKeys, config) then Some(|order| - 1)
    else LatestHeldScaleKeyIndex(order[..|order| - 1], pressedKeys, config)
  }

  /**
   * The note of the latest held scale key. The program tests the found key
   * for truthiness, so an empty-string key never yields a note.
   */
  function LatestScale(keyboardState: KeyboardState, config: ScaleDecisionConfig): (r: Option<NoteName>)
    ensures (forall i :: 0 <= i < |keyboardState.keyPressOrder| ==>
               !IsHeldScaleKey(keyboardState.keyPressOrder[i], keyboardState.pressedKeys, config)) ==> r.None?
    ensures forall i | 0 <= i < |keyboardState.keyPressOrder|
        && IsHeldScaleKey(keyboardState.keyPressOrder[i], keyboardState.pressedKeys, config)
        && (forall j :: i < j < |keyboardState.keyPressOrder| ==>
              !IsHeldScaleKey(keyboardState.keyPressOrder[j], keyboardState.pressedKeys, config))
        :: r == (if keyboardState.keyPressOrder[i] == "" then None
                 else Some(config.scaleKeyMapping[keyboardState.keyPressOrder[i]]))
  {
    var order := keyboardState.keyPressOrder;
    match LatestHeldScaleKeyIndex(order, keyboardState.pressedKeys, config)
    case None => None
    case Some(i) => if order[i] == "" then None else Some(config.scaleKeyMapping[order[i]])
  }

  /** Decides whether to play, and which note, for the current keyboard state. */
  function DetermineOutputScale(keyboardState: KeyboardState, audioState: AudioState, config: ScaleDecisionConfig)
    : (r: ScaleDecisionResult)
    ensures r.shouldPlay <==> r.noteToPlay.Some?
    ensures r.newAudioState.currentlyPlayingNote == r.noteToPlay
    ensures r.shouldPlay ==> IsVoiceKeyPressed(keyboardState.pressedKeys, config)
    ensures r.noteToPlay.Some? ==> r.noteToPlay.value in config.scaleKeyMapping.Values
  {
    if IsVoiceKeyPressed(keyboardState.pressedKeys, config) then
      match LatestScale(keyboardState, config)
      case Some(note) => ScaleDecisionResult(true, Some(note), AudioState(Some(note)))
      case None => ScaleDecisionResult(false, None, AudioState(None))
    else
      ScaleDecisionResult(false, None, AudioState(None))
  }

  /** The state after one key transition at time `timestamp`. */
  function UpdateKeyboardState(
    currentState: KeyboardState, key: string, action: KeyAction,
    timestamp: Timestamp, config: ScaleDecisionConfig): (r: KeyboardState)
    ensures key in r.pressedKeys <==> action == Press
    ensures forall k :: k != key ==> (k in r.pressedKeys <==> k in currentState.pressedKeys)
    ensures action == Press ==> |r.keyPressOrder| > 0 && r.keyPressOrder[|r.keyPressOrder| - 1] == key
    ensures action == Release ==> r.keyPressOrder == currentState.keyPressOrder
  {
    match action
    case Press =>
      KeyboardState(
        currentState.pressedKeys + {key},
        Without(currentState.keyPressOrder, key) + [key],
        if key in config.voiceKeys then Some(timestamp) else currentState.lastVoiceKeyPressTime,
        if key in config.scaleKeyMapping then Some(timestamp) else currentState.lastScaleKeyPressTime)
    case Release =>
      currentState.(pressedKeys := currentState.pressedKeys - {key})
  }

  /** The tracker's invariant: the press order is duplicate-free and covers every held key. */
  predicate Invariant(state: KeyboardState)
  {
    && NoDuplicates(state.keyPressOrder)
    && forall k :: k in state.pressedKeys ==> k in state.keyPressOrder
  }

  /** The state at the start of a session: nothing held, no history, no timestamps. */
  function CreateEmptyKeyboardState(): (r: KeyboardState)
    ensures Invariant(r)
    ensures forall config, audio :: !DetermineOutputScale(r, audio, config).shouldPlay
  {
    KeyboardState({}, [], None, None)
  }

  /** Nothing is playing at the start of a session. */
  function CreateEmptyAudioState(): (r: AudioState)
    ensures r.currentlyPlayingNote.None?
  {
    AudioState(None)
  }

  // ---------------------------------------------------------------------
  // The resolver

  /** Without a voice key held nothing plays, whatever scale keys are held. */
  lemma NoVoiceKeyNoSound(keyboardState: KeyboardState, audioState: AudioState, config: ScaleDecisionConfig)
    requires !IsVoiceKeyPressed(keyboardState.pressedKeys, config)
    ensures DetermineOutputScale(keyboardState, audioState, config) ==
            ScaleDecisionResult(false, None, AudioState(None))
  {
  }

  /**
   * With a voice key held, the note is the mapping of the last press-order
   * entry that is mapped and held (a non-empty key).
   */
  lemma PlaysLatestHeldScaleKey(
    keyboardState: KeyboardState, audioState: AudioState, config: ScaleDecisionConfig, i: nat)
    requires IsVoiceKeyPressed(keyboardState.pressedKeys, config)
    requires i < |keyboardState.keyPressOrder|
    requires IsHeldScaleKey(keyboardState.keyPressOrder[i], keyboardState.pressedKeys, config)
    requires forall j :: i < j < |keyboardState.keyPressOrder| ==>
      !IsHeldScaleKey(keyboardState.keyPressOrder[j], keyboardState.pressedKeys, config)
    requires keyboardState.keyPressOrder[i] != ""
    ensures var r := DetermineOutputScale(keyboardState, audioState, config);
      r.shouldPlay && r.noteToPlay == Some(config.scaleKeyMapping[keyboardState.keyPressOrder[i]])
  {
    var found := LatestHeldScaleKeyIndex(keyboardState.keyPressOrder, keyboardState.pressedKeys, config);
    assert found == Some(i);
  }

  /** With a voice key held but no mapped key held, nothing plays and the audio state is cleared. */
  lemma NoHeldScaleKeyNoSound(keyboardState: KeyboardState, audioState: AudioState, config: ScaleDecisionConfig)
    requires forall k :: k in keyboardState.pressedKeys ==> k !in config.scaleKeyMapping
    ensures DetermineOutputScale(keyboardState, audioState, config) ==
            ScaleDecisionResult(false, None, AudioState(None))
  {
  }

  /** The audio state passed in and the priority strategy never change the decision. */
  lemma DecisionIgnoresAudioStateAndStrategy(
    keyboardState: KeyboardState, audio1: AudioState, audio2: AudioState,
    config: ScaleDecisionConfig, strategy: Option<PriorityStrategy>)
    ensures DetermineOutputScale(keyboardState, audio1, config) ==
            DetermineOutputScale(keyboardState, audio2, config.(priorityStrategy := strategy))
  {
    assert forall k :: (IsHeldScaleKey(k, keyboardState.pressedKeys, config) ==
      IsHeldScaleKey(k, keyboardState.pressedKeys, config.(priorityStrategy := strategy)));
    assert LatestHeldScaleKeyIndex(keyboardState.keyPressOrder, keyboardState.pressedKeys, config) ==
      LatestHeldScaleKeyIndex(keyboardState.keyPressOrder, keyboardState.pressedKeys, config.(priorityStrategy := strategy));
  }

  // ---------------------------------------------------------------------
  // The tracker

  /**
   * Pressing holds the key and moves it to the end of the press order,
   * where it occurs once; the other keys keep their occurrences and order.
   */
  lemma PressMovesKeyToEnd(state: KeyboardState, key: string, timestamp: Timestamp, config: ScaleDecisionConfig)
    ensures var s := UpdateKeyboardState(state, key, Press, timestamp, config);
      && s.pressedKeys == state.pressedKeys + {key}
      && |s.keyPressOrder| > 0 && s.keyPressOrder[|s.keyPressOrder| - 1] == key
      && multiset(s.keyPressOrder)[key] == 1
      && IsSubsequence(s.keyPressOrder[..|s.keyPressOrder| - 1], state.keyPressOrder)
      && forall k :: k != key ==> multiset(s.keyPressOrder)[k] == multiset(state.keyPressOrder)[k]
  {
    var s := UpdateKeyboardState(state, key, Press, timestamp, config);
    var rest := Without(state.keyPressOrder, key);
    WithoutCharacterized(state.keyPressOrder, key);
    assert s.keyPressOrder[..|s.keyPressOrder| - 1] == rest;
    assert multiset(s.keyPressOrder) == multiset(rest) + multiset{key};
    assert multiset(rest)[key] == 0;
  }

  /**
   * Pressing stamps the voice-key time exactly for a configured voice key and
   * the scale-key time exactly for a mapped key; otherwise each is carried over.
   */
  lemma PressStampsTimes(state: KeyboardState, key: string, timestamp: Timestamp, config: ScaleDecisionConfig)
    ensures var s := UpdateKeyboardState(state, key, Press, timestamp, config);
      && s.lastVoiceKeyPressTime == (if key in config.voiceKeys then Some(timestamp) else state.lastVoiceKeyPressTime)
      && s.lastScaleKeyPressTime == (if key in config.scaleKeyMapping then Some(timestamp) else state.lastScaleKeyPressTime)
  {
  }

  /** Releasing only drops the key from the held set; order and times are kept. */
  lemma ReleaseOnlyUnholds(state: KeyboardState, key: string, timestamp: Timestamp, config: ScaleDecisionConfig)
    ensures var s := UpdateKeyboardState(state, key, Release, timestamp, config);
      && s.pressedKeys == state.pressedKeys - {key}
      && s.keyPressOrder == state.keyPressOrder
      && s.lastVoiceKeyPressTime == state.lastVoiceKeyPressTime
      && s.lastScaleKeyPressTime == state.lastScaleKeyPressTime
  {
  }

  /** Every transition keeps the tracker's invariant. */
  lemma {:induction false} UpdatePreservesInvariant(
    state: KeyboardState, key: string, action: KeyAction, timestamp: Timestamp, config: ScaleDecisionConfig)
    requires Invariant(state)
    ensures Invariant(UpdateKeyboardState(state, key, action, timestamp, config))
  {
    if action == Press {
      var order := state.keyPressOrder;
      var rest := Without(order, key);
      WithoutNoDuplicates(order, key);
      WithoutMembers(order, key);
      var s := UpdateKeyboardState(state, key, action, timestamp, config);
      assert s.keyPressOrder == rest + [key];
      forall i, j | 0 <= i < j < |s.keyPressOrder| ensures s.keyPressOrder[i] != s.keyPressOrder[j] {
        if j == |rest| {
          assert s.keyPressOrder[i] == rest[i] && rest[i] in rest;
        } else {
          assert s.keyPressOrder[i] == rest[i] && s.keyPressOrder[j] == rest[j];
        }
      }
      forall k | k in s.pressedKeys ensures k in s.keyPressOrder {
        if k != key {
          assert k in rest;
        } else {
          assert s.keyPressOrder[|rest|] == key;
        }
      }
    }
  }

  /** Appending a key that is not held does not change the latest held scale key. */
  lemma {:induction false} LatestIgnoresUnheldTail(
    order: seq<string>, key: string, pressedKeys: set<string>, config: ScaleDecisionConfig)
    requires key !in pressedKeys
    ensures LatestHeldScaleKeyIndex(order + [key], pressedKeys, config) ==
            LatestHeldScaleKeyIndex(order, pressedKeys, config)
  {
    assert (order + [key])[..|order|] == order;
  }

  /** Removing a key that is not held does not change which key is the latest held one. */
  lemma {:induction false} LatestIgnoresUnheldKey(
    order: seq<string>, key: string, pressedKeys: set<string>, config: ScaleDecisionConfig)
    requires key !in pressedKeys
    ensures var before := LatestHeldScaleKeyIndex(order, pressedKeys, config);
      var after := LatestHeldScaleKeyIndex(Without(order, key), pressedKeys, config);
      before.Some? == after.Some? && (before.Some? ==> order[before.value] == Without(order, key)[after.value])
    decreases |order|
  {
    if order != [] {
      var init, last := order[..|order| - 1], order[|order| - 1];
      assert order == init + [last];
      LatestIgnoresUnheldKey(init, key, pressedKeys, config);
      WithoutOfAppend(init, last, key);
      if last == key {
        assert Without(order, key) == Without(init, key);
      } else {
        assert Without(order, key) == Without(init, key) + [last];
        assert (Without(init, key) + [last])[..|Without(init, key)|] == Without(init, key);
      }
    }
  }

  /** Removal distributes over appending one element. */
  lemma {:induction false} WithoutOfAppend(s: seq<string>, x: string, key: string)
    ensures Without(s + [x], key) == Without(s, key) + (if x == key then [] else [x])
    decreases |s|
  {
    if s == [] {
      assert [] + [x] == [x];
    } else {
      assert (s + [x])[1..] == s[1..] + [x];
      assert (s + [x])[0] == s[0];
      WithoutOfAppend(s[1..], x, key);
    }
  }

  /**
   * Pressing a key that was not held and releasing it again restores the
   * decision: the sound goes back to the previous latest held scale key.
   */
  lemma {:induction false} PressThenReleaseRestoresDecision(
    state: KeyboardState, key: string, t1: Timestamp, t2: Timestamp,
    audioState: AudioState, config: ScaleDecisionConfig)
    requires key !in state.pressedKeys
    ensures var after := UpdateKeyboardState(UpdateKeyboardState(state, key, Press, t1, config), key, Release, t2, config);
      DetermineOutputScale(after, audioState, config) == DetermineOutputScale(state, audioState, config)
  {
    var after := UpdateKeyboardState(UpdateKeyboardState(state, key, Press, t1, config), key, Release, t2, config);
    assert after.pressedKeys == state.pressedKeys;
    var rest := Without(state.keyPressOrder, key);
    assert after.keyPressOrder == rest + [key];
    LatestIgnoresUnheldTail(rest, key, state.pressedKeys, config);
    LatestIgnoresUnheldKey(state.keyPressOrder, key, state.pressedKeys, config);
    assert LatestScale(after, config) == LatestScale(state, config);
  }

  // ---------------------------------------------------------------------
  // A session with the instrument's own key tables

  /** The voice keys and the direct scale-key table of the instrument. */
  function KeyTableConfig(): (r: ScaleDecisionConfig)
    ensures forall k :: k in r.voiceKeys <==> KeyTypes.IsVoiceKey(k)
    ensures forall k :: k in r.scaleKeyMapping <==> KeyTypes.IsScaleKey(k)
  {
    ScaleDecisionConfig(KeyTypes.GetVoiceKeys(), KeyToNote, Some(LastPressed))
  }

  /** From silence, press a (still silent: no voice key) and then j (C4). */
  lemma SessionFirstPresses()
    ensures var config := KeyTableConfig();
      var s1 := UpdateKeyboardState(CreateEmptyKeyboardState(), "a", Press, 1, config);
      var s2 := UpdateKeyboardState(s1, "j", Press, 2, config);
      && s2.pressedKeys == {"a", "j"} && s2.keyPressOrder == ["a", "j"]
      && DetermineOutputScale(s1, CreateEmptyAudioState(), config).noteToPlay == None
      && DetermineOutputScale(s2, CreateEmptyAudioState(), config).noteToPlay == Some("C4")
  {
    var config := KeyTableConfig();
    var audio := CreateEmptyAudioState();
    var s1 := UpdateKeyboardState(CreateEmptyKeyboardState(), "a", Press, 1, config);
    assert s1.pressedKeys == {"a"} && s1.keyPressOrder == ["a"];
    assert !IsVoiceKeyPressed(s1.pressedKeys, config);
    var s2 := UpdateKeyboardState(s1, "j", Press, 2, config);
    assert s2.pressedKeys == {"a", "j"} && s2.keyPressOrder == ["a", "j"];
    assert IsVoiceKeyPressed(s2.pressedKeys, config) by {
      assert config.voiceKeys[0] == "j";
    }
    PlaysLatestHeldScaleKey(s2, audio, config, 0);
  }

  /** With a and j held in that order, pressing s plays D4. */
  lemma SessionPressS(s2: KeyboardState, timestamp: Timestamp)
    requires s2.pressedKeys == {"a", "j"} && s2.keyPressOrder == ["a", "j"]
    ensures var config := KeyTableConfig();
      var s3 := UpdateKeyboardState(s2, "s", Press, timestamp, config);
      DetermineOutputScale(s3, CreateEmptyAudioState(), config).noteToPlay == Some("D4")
  {
    var config := KeyTableConfig();
    var s3 := UpdateKeyboardState(s2, "s", Press, timestamp, config);
    assert ["a", "j"][1..] == ["j"] && Without(["j"], "s") == ["j"];
    assert Without(["a", "j"], "s") == ["a", "j"];
    assert s3.pressedKeys == {"a", "j", "s"} && s3.keyPressOrder == ["a", "j", "s"];
    assert IsVoiceKeyPressed(s3.pressedKeys, config) by {
      assert config.voiceKeys[0] == "j";
    }
    PlaysLatestHeldScaleKey(s3, CreateEmptyAudioState(), config, 2);
  }

  /** With only a held, nothing sounds. */
  lemma SessionOnlyAHeld(s: KeyboardState)
    requires s.pressedKeys == {"a"}
    ensures DetermineOutputScale(s, CreateEmptyAudioState(), KeyTableConfig()).noteToPlay == None
  {
    var config := KeyTableConfig();
    assert !IsVoiceKeyPressed(s.pressedKeys, config);
  }

  /**
   * Press a (silent, the voice key is up), press j (C4), press s while a is
   * held (D4), release s (back to C4 without re-pressing a), release j (silence).
   */
  lemma SessionWithTwoScaleKeys()
    ensures var config := KeyTableConfig();
      var audio := CreateEmptyAudioState();
      var s1 := UpdateKeyboardState(CreateEmptyKeyboardState(), "a", Press, 1, config);
      var s2 := UpdateKeyboardState(s1, "j", Press, 2, config);
      var s3 := UpdateKeyboardState(s2, "s", Press, 3, config);
      var s4 := UpdateKeyboardState(s3, "s", Release, 4, config);
      var s5 := UpdateKeyboardState(s4, "j", Release, 5, config);
      && DetermineOutputScale(s1, audio, config).noteToPlay == None
      && DetermineOutputScale(s2, audio, config).noteToPlay == Some("C4")
      && DetermineOutputScale(s3, audio, config).noteToPlay == Some("D4")
      && DetermineOutputScale(s4, audio, config).noteToPlay == Some("C4")
      && DetermineOutputScale(s5, audio, config).noteToPlay == None
  {
    SessionFirstPresses();
    var config := KeyTableConfig();
    var audio := CreateEmptyAudioState();
    var s1 := UpdateKeyboardState(CreateEmptyKeyboardState(), "a", Press, 1, config);
    var s2 := UpdateKeyboardState(s1, "j", Press, 2, config);
    SessionPressS(s2, 3);
    var s3 := UpdateKeyboardState(s2, "s", Press, 3, config);
    var s4 := UpdateKeyboardState(s3, "s", Release, 4, config);
    PressThenReleaseRestoresDecision(s2, "s", 3, 4, audio, config);
    var s5 := UpdateKeyboardState(s4, "j", Release, 5, config);
    assert s5.pressedKeys == {"a"};
    SessionOnlyAHeld(s5);
  }
}
