/**
 * The stored settings of PreferencesRepository.kt: the EasingType and KeyCode
 * enums with their ordinal codecs, and a repository that keeps every setting
 * in a key/value store under a fixed key name, enums as their ordinals.
 */
module Preferences {
  import opened Util

  datatype EasingType = FastOutSlowIn | LinearOutSlowIn | FastOutLinearIn | Linear

  /** Declaration order of EasingType, which fixes its ordinals. */
  const EasingTypeEntries: seq<EasingType> := [FastOutSlowIn, LinearOutSlowIn, FastOutLinearIn, Linear]

  /** A gamepad key; `Offset()` is the bit the key occupies in the buttons byte. */
  datatype KeyCode = TL | TR | South | East | West | North {
    function Offset(): (offset: int)
      ensures 0 <= offset < 8 && offset != 2 && offset != 3
    {
      match this
      case TL => 0
      case TR => 1
      case South => 4
      case East => 5
      case West => 6
      case North => 7
    }
  }

  /** Declaration order of KeyCode, which fixes its ordinals. */
  const KeyCodeEntries: seq<KeyCode> := [TL, TR, South, East, West, North]

  function EasingTypeOrdinal(e: EasingType): (i: nat)
    ensures i < |EasingTypeEntries| && EasingTypeEntries[i] == e
  {
    assert e in EasingTypeEntries by { assert e == EasingTypeEntries[EasingTypeIndex(e)]; }
    Ordinal(EasingTypeEntries, e)
  }

  function KeyCodeOrdinal(k: KeyCode): (i: nat)
    ensures i < |KeyCodeEntries| && KeyCodeEntries[i] == k
  {
    assert k in KeyCodeEntries by { assert k == KeyCodeEntries[KeyCodeIndex(k)]; }
    Ordinal(KeyCodeEntries, k)
  }

  // Where each entry sits in its declaration; used only to show membership.
  function EasingTypeIndex(e: EasingType): nat {
    match e
    case FastOutSlowIn => 0
    case LinearOutSlowIn => 1
    case FastOutLinearIn => 2
    case Linear => 3
  }

  function KeyCodeIndex(k: KeyCode): nat {
    match k
    case TL => 0
    case TR => 1
    case South => 2
    case East => 3
    case West => 4
    case North => 5
  }

  /** `EasingType.entryAt(index)`. */
  function EasingTypeEntryAt(index: int): (r: Result<EasingType, EnumError>)
    ensures r.Ok? <==> 0 <= index < 4
    ensures r.Ok? ==> EasingTypeOrdinal(r.value) == index
  {
    var r := EnumEntryAt(EasingTypeEntries, index);
    if r.Ok? then OrdinalOfEntryAt(EasingTypeEntries, index); r else r
  }

  /** `KeyCode.entryAt(index)`. */
  function KeyCodeEntryAt(index: int): (r: Result<KeyCode, EnumError>)
    ensures r.Ok? <==> 0 <= index < 6
    ensures r.Ok? ==> KeyCodeOrdinal(r.value) == index
  {
    var r := EnumEntryAt(KeyCodeEntries, index);
    if r.Ok? then OrdinalOfEntryAt(KeyCodeEntries, index); r else r
  }

  /** Decoding an ordinal gives back the entry, for each of the four easings. */
  lemma EasingTypeRoundTrip(e: EasingType)
    ensures EasingTypeEntryAt(EasingTypeOrdinal(e)) == Ok(e)
  {
    EntryAtOrdinal(EasingTypeEntries, e);
  }

  /** Decoding an ordinal gives back the entry, for each of the six keys. */
  lemma KeyCodeRoundTrip(k: KeyCode)
    ensures KeyCodeEntryAt(KeyCodeOrdinal(k)) == Ok(k)
  {
    EntryAtOrdinal(KeyCodeEntries, k);
  }

  /** Key offsets are pairwise distinct bit positions of one byte. */
  lemma KeyCodeOffsets(k: KeyCode, k': KeyCode)
    ensures 0 <= k.Offset() < 8
    ensures k != k' ==> k.Offset() != k'.Offset()
  {
  }

  /** The eleven keys of the store. */
  datatype Key =
    | AutoClutchKey
    | ShiftUpKeyCodeKey | ShiftDownKeyCodeKey | ClutchKeyCodeKey | HandbrakeKeyCodeKey
    | BrakeEasingKey | BrakeSustainMsKey | BrakeReleaseMsKey
    | ThrottleEasingKey | ThrottleSustainMsKey | ThrottleReleaseMsKey
  {
    /** The name the key is stored under; keys are equal when their names are. */
    function Name(): string {
      match this
      case AutoClutchKey => "auto_clutch"
      case ShiftUpKeyCodeKey => "shift_up_keycode"
      case ShiftDownKeyCodeKey => "shift_down_keycode"
      case ClutchKeyCodeKey => "clutch_keycode"
      case HandbrakeKeyCodeKey => "handbrake_keycode"
      case BrakeEasingKey => "brake_easing"
      case BrakeSustainMsKey => "brake_sustain_ms"
      case BrakeReleaseMsKey => "brake_release_ms"
      case ThrottleEasingKey => "throttle_easing"
      case ThrottleSustainMsKey => "throttle_sustain_ms"
      case ThrottleReleaseMsKey => "throttle_release_ms"
    }
  }

  /** The eleven key names are distinct, so no setter overwrites another setting. */
  lemma KeyNamesDistinct(a: Key, b: Key)
    ensures a != b ==> a.Name() != b.Name()
  {
  }

  /** The four button settings, each stored as a KeyCode ordinal. */
  datatype Button = ShiftUp | ShiftDown | Clutch | Handbrake {
    function Key(): Key {
      match this
      case ShiftUp => ShiftUpKeyCodeKey
      case ShiftDown => ShiftDownKeyCodeKey
      case Clutch => ClutchKeyCodeKey
      case Handbrake => HandbrakeKeyCodeKey
    }
  }

  /** The two analog axes, each with an easing, a sustain and a release duration. */
  datatype Axis = Brake | Throttle {
    function EasingKey(): Key {
      match this
      case Brake => BrakeEasingKey
      case Throttle => ThrottleEasingKey
    }
    function SustainKey(): Key {
      match this
      case Brake => BrakeSustainMsKey
      case Throttle => ThrottleSustainMsKey
    }
    function ReleaseKey(): Key {
      match this
      case Brake => BrakeReleaseMsKey
      case Throttle => ThrottleReleaseMsKey
    }
  }

  /** `value?.let { KeyCode.entryAt(it) }`: null stays null, a number is decoded. */
  function DecodeKeyCode(stored: Option<int>): (r: Result<Option<KeyCode>, EnumError>)
    ensures stored.None? ==> r == Ok(None)
    ensures stored.Some? ==> (r.Ok? <==> 0 <= stored.value < 6)
    ensures r.Ok? && r.value.Some? ==> stored == Some(KeyCodeOrdinal(r.value.value))
    ensures stored.Some? && 0 <= stored.value < 6 ==> r == Ok(Some(KeyCodeEntries[stored.value]))
    ensures stored.Some? && !(0 <= stored.value < 6) ==> r == Err(IndexOutOfBounds(stored.value))
  {
    match stored
    case None => Ok(None)
    case Some(i) =>
      match KeyCodeEntryAt(i)
      case Ok(k) => Ok(Some(k))
      case Err(e) => Err(e)
  }

  /** `value?.let { EasingType.entryAt(it) }`. */
  function DecodeEasingType(stored: Option<int>): (r: Result<Option<EasingType>, EnumError>)
    ensures stored.None? ==> r == Ok(None)
    ensures stored.Some? ==> (r.Ok? <==> 0 <= stored.value < 4)
    ensures r.Ok? && r.value.Some? ==> stored == Some(EasingTypeOrdinal(r.value.value))
    ensures stored.Some? && 0 <= stored.value < 4 ==> r == Ok(Some(EasingTypeEntries[stored.value]))
    ensures stored.Some? && !(0 <= stored.value < 4) ==> r == Err(IndexOutOfBounds(stored.value))
  {
    match stored
    case None => Ok(None)
    case Some(i) =>
      match EasingTypeEntryAt(i)
      case Ok(e) => Ok(Some(e))
      case Err(err) => Err(err)
  }

  /** `datastore.data.map { it[key] }`: the stored value, null when absent. */
  function Lookup<V>(store: map<string, V>, key: Key): (r: Option<V>)
    ensures r.Some? <==> key.Name() in store
    ensures r.Some? ==> r.value == store[key.Name()]
  {
    if key.Name() in store then Some(store[key.Name()]) else None
  }

  /**
   * PreferencesRepository over a DataStore. The store holds Boolean and Int
   * preferences; the repository applies no defaults.
   */
  class PreferencesRepository {
    var flags: map<string, bool>
    var numbers: map<string, int>

    constructor (flags: map<string, bool>, numbers: map<string, int>)
      ensures this.flags == flags && this.numbers == numbers
    {
      this.flags := flags;
      this.numbers := numbers;
    }

    function GetKeyCode(button: Button): (r: Result<Option<KeyCode>, EnumError>)
      reads this
      ensures button.Key().Name() !in numbers ==> r == Ok(None)
      ensures button.Key().Name() in numbers ==>
                (r.Ok? <==> 0 <= numbers[button.Key().Name()] < 6)
      ensures r.Ok? && r.value.Some? ==> numbers[button.Key().Name()] == KeyCodeOrdinal(r.value.value)
      ensures button.Key().Name() in numbers && 0 <= numbers[button.Key().Name()] < 6 ==>
                r == Ok(Some(KeyCodeEntries[numbers[button.Key().Name()]]))
      ensures button.Key().Name() in numbers && !(0 <= numbers[button.Key().Name()] < 6) ==>
                r == Err(IndexOutOfBounds(numbers[button.Key().Name()]))
    {
      DecodeKeyCode(Lookup(numbers, button.Key()))
    }

    method SetKeyCode(button: Button, keyCode: KeyCode)
      modifies this
      ensures numbers == old(numbers)[button.Key().Name() := KeyCodeOrdinal(keyCode)]
      ensures flags == old(flags)
      ensures GetKeyCode(button) == Ok(Some(keyCode))
    {
      numbers := numbers[button.Key().Name() := KeyCodeOrdinal(keyCode)];
      KeyCodeRoundTrip(keyCode);
    }

    function GetAutoClutch(): (r: Option<bool>)
      reads this
      ensures r.Some? <==> AutoClutchKey.Name() in flags
      ensures r.Some? ==> r.value == flags[AutoClutchKey.Name()]
    {
      Lookup(flags, AutoClutchKey)
    }

    method SetAutoClutch(state: bool)
      modifies this
      ensures flags == old(flags)[AutoClutchKey.Name() := state]
      ensures numbers == old(numbers)
      ensures GetAutoClutch() == Some(state)
    {
      flags := flags[AutoClutchKey.Name() := state];
    }

    function GetEasing(axis: Axis): (r: Result<Option<EasingType>, EnumError>)
      reads this
      ensures axis.EasingKey().Name() !in numbers ==> r == Ok(None)
      ensures axis.EasingKey().Name() in numbers ==>
                (r.Ok? <==> 0 <= numbers[axis.EasingKey().Name()] < 4)
      ensures r.Ok? && r.value.Some? ==> numbers[axis.EasingKey().Name()] == EasingTypeOrdinal(r.value.value)
      ensures axis.EasingKey().Name() in numbers && 0 <= numbers[axis.EasingKey().Name()] < 4 ==>
                r == Ok(Some(EasingTypeEntries[numbers[axis.EasingKey().Name()]]))
      ensures axis.EasingKey().Name() in numbers && !(0 <= numbers[axis.EasingKey().Name()] < 4) ==>
                r == Err(IndexOutOfBounds(numbers[axis.EasingKey().Name()]))
    {
      DecodeEasingType(Lookup(numbers, axis.EasingKey()))
    }

    method SetEasing(axis: Axis, easingType: EasingType)
      modifies this
      ensures numbers == old(numbers)[axis.EasingKey().Name() := EasingTypeOrdinal(easingType)]
      ensures flags == old(flags)
      ensures GetEasing(axis) == Ok(Some(easingType))
    {
      numbers := numbers[axis.EasingKey().Name() := EasingTypeOrdinal(easingType)];
      EasingTypeRoundTrip(easingType);
    }

    function GetSustain(axis: Axis): (r: Option<int>)
      reads this
      ensures r.Some? <==> axis.SustainKey().Name() in numbers
      ensures r.Some? ==> r.value == numbers[axis.SustainKey().Name()]
    {
      Lookup(numbers, axis.SustainKey())
    }

    method SetSustain(axis: Axis, millis: int)
      modifies this
      ensures numbers == old(numbers)[axis.SustainKey().Name() := millis]
      ensures flags == old(flags)
      ensures GetSustain(axis) == Some(millis)
    {
      numbers := numbers[axis.SustainKey().Name() := millis];
    }

    function GetRelease(axis: Axis): (r: Option<int>)
      reads this
      ensures r.Some? <==> axis.ReleaseKey().Name() in numbers
      ensures r.Some? ==> r.value == numbers[axis.ReleaseKey().Name()]
    {
      Lookup(numbers, axis.ReleaseKey())
    }

    method SetRelease(axis: Axis, millis: int)
      modifies this
      ensures numbers == old(numbers)[axis.ReleaseKey().Name() := millis]
      ensures flags == old(flags)
      ensures GetRelease(axis) == Some(millis)
    {
      numbers := numbers[axis.ReleaseKey().Name() := millis];
    }
  }

  /** Writing one key leaves what every other key reads unchanged. */
  lemma {:induction false} OtherKeysUnchanged<V>(store: map<string, V>, written: Key, value: V, other: Key)
    requires other != written
    ensures Lookup(store[written.Name() := value], other) == Lookup(store, other)
  {
    KeyNamesDistinct(written, other);
  }
}
