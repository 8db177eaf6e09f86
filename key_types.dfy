/** Which keyboard keys gate the sound and which select a note. */
module KeyTypes {
  import opened Wrappers
  import opened NoteFrequencies
  import Sequences

  /** The voice (gate) keys. */
  const VoiceKeys: seq<string> := ["j"]

  /**
   * Names every plain object inherits from `Object.prototype`; the `in`
   * operator finds them on `KeyToNote` even though the table does not
   * declare them.
   */
  const ObjectPrototypeMembers: set<string> := {
    "constructor", "hasOwnProperty", "isPrototypeOf", "propertyIsEnumerable",
    "toLocaleString", "toString", "valueOf", "__proto__",
    "__defineGetter__", "__defineSetter__", "__lookupGetter__", "__lookupSetter__"}

  /** True exactly for the voice key "j"; the comparison is case-sensitive. */
  predicate IsVoiceKey(key: string)
    ensures IsVoiceKey(key) <==> key == "j"
  {
    key in VoiceKeys
  }

  /** `key in KEY_TO_NOTE` as JavaScript evaluates it: own and inherited names. */
  predicate IsScaleKeyAsWritten(key: string)
    ensures IsScaleKeyAsWritten(key) <==> IsScaleKey(key) || key in ObjectPrototypeMembers
  {
    key in KeyToNote || key in ObjectPrototypeMembers
  }

  /** A key declared by `KeyToNote` itself: one of a, s, d, f, z, x, c, v. */
  predicate IsScaleKey(key: string)
    ensures IsScaleKey(key) <==> key in {"a", "s", "d", "f", "z", "x", "c", "v"}
  {
    key in KeyToNote
  }

  /** The voice keys, as a list. */
  function GetVoiceKeys(): (r: seq<string>)
    ensures forall k :: k in r <==> IsVoiceKey(k)
    ensures Sequences.NoDuplicates(r)
  {
    VoiceKeys
  }

  /** The scale keys, in the order `KeyToNote` declares them. */
  function GetScaleKeys(): (r: seq<string>)
    ensures |r| == 8 && Sequences.NoDuplicates(r)
    ensures forall k :: k in r <==> IsScaleKey(k)
  {
    KeyToNoteOrder
  }

  /** The note a scale key plays; `None` for every other key. */
  function GetScaleFromKey(key: string): (r: Option<NoteName>)
    ensures r.Some? <==> IsScaleKey(key)
    ensures r.Some? ==> r.value in BinaryToNote[..8]
  {
    assert BinaryToNote[..8] == ["C4", "D4", "E4", "F4", "G4", "A4", "B4", "C5"];
    if IsScaleKey(key) then Some(KeyToNote[key]) else None
  }

  /** The voice key answers only to "j": upper case and other keys are refused. */
  lemma VoiceKeyExamples()
    ensures IsVoiceKey("j")
    ensures !IsVoiceKey("J") && !IsVoiceKey("a") && !IsVoiceKey("k") && !IsVoiceKey("1")
  {
  }

  /** Each scale key, in declaration order, plays the matching selector note. */
  lemma {:induction false} ScaleFromKeyFollowsTable(i: nat)
    requires i < 8
    ensures GetScaleFromKey(GetScaleKeys()[i]) == Some(BinaryToNote[i])
  {
    KeyToNoteMatchesSelectorTable();
  }

  /** No key is both a voice key and a scale key. */
  lemma VoiceAndScaleKeysDisjoint(key: string)
    ensures !(IsVoiceKey(key) && IsScaleKey(key))
  {
  }

  /** Inherited object names pass the written membership test without being scale keys. */
  lemma InheritedNameCountsAsScaleKey()
    ensures IsScaleKeyAsWritten("toString") && !IsScaleKey("toString")
  {
  }
}
