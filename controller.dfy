/**
 * ControllerViewModel.kt: the button mapping read from the preferences when a
 * session starts, and `transmit`, which encodes one control sample into the
 * 12-byte DATA payload and emits it on the link.
 */
module Controller {
  import opened Util
  import opened Preferences
  import opened Network
  import opened Model
  import opened KotlinBits

  /** The mapping `transmit` reads: auto-clutch and the bit offset of each button. */
  datatype ButtonConfig = ButtonConfig(
    autoClutch: bool,
    shiftUpOffset: int,
    shiftDownOffset: int,
    clutchOffset: int,
    handbrakeOffset: int)

  /** An offset some key code gives. */
  predicate IsKeyOffset(offset: int) {
    exists k: KeyCode :: k.Offset() == offset
  }

  /** Every offset of the mapping is one a key code gives. */
  predicate KeyOffsets(config: ButtonConfig) {
    && IsKeyOffset(config.shiftUpOffset) && IsKeyOffset(config.shiftDownOffset)
    && IsKeyOffset(config.clutchOffset) && IsKeyOffset(config.handbrakeOffset)
  }

  /** The mapping's starting values: `DEFAULT_AUTO_CLUTCH` and the four default key codes. */
  datatype Defaults = Defaults(autoClutch: bool, shiftUp: KeyCode, shiftDown: KeyCode, clutch: KeyCode, handbrake: KeyCode) {
    function Config(): (config: ButtonConfig)
      ensures config.autoClutch == autoClutch && KeyOffsets(config)
      ensures config.shiftUpOffset == shiftUp.Offset() && config.shiftDownOffset == shiftDown.Offset()
      ensures config.clutchOffset == clutch.Offset() && config.handbrakeOffset == handbrake.Offset()
    {
      ButtonConfig(autoClutch, shiftUp.Offset(), shiftDown.Offset(), clutch.Offset(), handbrake.Offset())
    }
  }

  /**
   * A shift paddle's step of the buttons value: the clutch bit first when
   * auto-clutch is on, then the paddle's own bit, both only when pressed.
   */
  function Shifted(buttons: bv32, pressed: bool, autoClutch: bool, clutch: bv5, count: bv5): (shifted: bv32)
    ensures !pressed ==> shifted == buttons
  {
    SetIf(SetIf(buttons, pressed && autoClutch, clutch), pressed, count)
  }

  /**
   * The buttons value of one sample, in the order `transmit` builds it: shift-up
   * (with the clutch when auto-clutch is on), shift-down likewise, handbrake.
   */
  function Buttons(config: ButtonConfig, shiftUp: bool, shiftDown: bool, handbrake: bool): (buttons: bv32)
    ensures !shiftUp && !shiftDown && !handbrake ==> buttons == 0
  {
    var clutch := ShiftCount(config.clutchOffset);
    var afterUp := Shifted(0, shiftUp, config.autoClutch, clutch, ShiftCount(config.shiftUpOffset));
    var afterDown := Shifted(afterUp, shiftDown, config.autoClutch, clutch, ShiftCount(config.shiftDownOffset));
    SetIf(afterDown, handbrake, ShiftCount(config.handbrakeOffset))
  }

  lemma BitSetShifted(buttons: bv32, pressed: bool, autoClutch: bool, clutch: bv5, count: bv5, i: bv5)
    ensures BitSet(Shifted(buttons, pressed, autoClutch, clutch, count), i) <==>
              || BitSet(buttons, i)
              || (pressed && autoClutch && i == clutch)
              || (pressed && i == count)
  {
    BitSetSetIf(buttons, pressed && autoClutch, clutch, i);
    BitSetSetIf(SetIf(buttons, pressed && autoClutch, clutch), pressed, count, i);
  }

  /** Bit i of the buttons value. */
  lemma ButtonsBit(config: ButtonConfig, shiftUp: bool, shiftDown: bool, handbrake: bool, i: bv5)
    ensures BitSet(Buttons(config, shiftUp, shiftDown, handbrake), i) <==>
              || (shiftUp && i == ShiftCount(config.shiftUpOffset))
              || (shiftDown && i == ShiftCount(config.shiftDownOffset))
              || ((shiftUp || shiftDown) && config.autoClutch && i == ShiftCount(config.clutchOffset))
              || (handbrake && i == ShiftCount(config.handbrakeOffset))
  {
    var clutch := ShiftCount(config.clutchOffset);
    var afterUp := Shifted(0, shiftUp, config.autoClutch, clutch, ShiftCount(config.shiftUpOffset));
    var afterDown := Shifted(afterUp, shiftDown, config.autoClutch, clutch, ShiftCount(config.shiftDownOffset));
    BitSetZero(i);
    BitSetShifted(0, shiftUp, config.autoClutch, clutch, ShiftCount(config.shiftUpOffset), i);
    BitSetShifted(afterUp, shiftDown, config.autoClutch, clutch, ShiftCount(config.shiftDownOffset), i);
    BitSetSetIf(afterDown, handbrake, ShiftCount(config.handbrakeOffset), i);
  }

  /**
   * Bit i of the buttons value is set exactly when a pressed button is mapped
   * to it, the clutch counting as pressed with either shift when auto-clutch is on.
   */
  lemma ButtonsBits(config: ButtonConfig, shiftUp: bool, shiftDown: bool, handbrake: bool)
    ensures var buttons := Buttons(config, shiftUp, shiftDown, handbrake);
            forall i: bv5 {:trigger BitSet(buttons, i)} :: BitSet(buttons, i) <==>
              || (shiftUp && i == ShiftCount(config.shiftUpOffset))
              || (shiftDown && i == ShiftCount(config.shiftDownOffset))
              || ((shiftUp || shiftDown) && config.autoClutch && i == ShiftCount(config.clutchOffset))
              || (handbrake && i == ShiftCount(config.handbrakeOffset))
  {
    forall i: bv5 {
      ButtonsBit(config, shiftUp, shiftDown, handbrake, i);
    }
  }

  /** With every offset a key code gives (0..7) the buttons value fits in the byte it is sent in. */
  lemma ButtonsFitByte(config: ButtonConfig, shiftUp: bool, shiftDown: bool, handbrake: bool)
    requires && 0 <= config.shiftUpOffset < 8 && 0 <= config.shiftDownOffset < 8
             && 0 <= config.clutchOffset < 8 && 0 <= config.handbrakeOffset < 8
    ensures Buttons(config, shiftUp, shiftDown, handbrake) < 256
  {
    var clutch := ShiftCount(config.clutchOffset);
    var up := ShiftCount(config.shiftUpOffset);
    var down := ShiftCount(config.shiftDownOffset);
    SmallShiftCount(config.clutchOffset);
    SmallShiftCount(config.shiftUpOffset);
    SmallShiftCount(config.shiftDownOffset);
    SmallShiftCount(config.handbrakeOffset);
    var b1 := SetIf(0, shiftUp && config.autoClutch, clutch);
    SetIfBelowByte(0, shiftUp && config.autoClutch, clutch);
    var b2 := SetIf(b1, shiftUp, up);
    SetIfBelowByte(b1, shiftUp, up);
    var b3 := SetIf(b2, shiftDown && config.autoClutch, clutch);
    SetIfBelowByte(b2, shiftDown && config.autoClutch, clutch);
    var b4 := SetIf(b3, shiftDown, down);
    SetIfBelowByte(b3, shiftDown, down);
    SetIfBelowByte(b4, handbrake, ShiftCount(config.handbrakeOffset));
  }

  /** The mapping only ever holds key-code offsets, so the buttons value fits in its byte. */
  lemma KeyOffsetsFitByte(config: ButtonConfig, shiftUp: bool, shiftDown: bool, handbrake: bool)
    requires KeyOffsets(config)
    ensures Buttons(config, shiftUp, shiftDown, handbrake) < 256
  {
    var up: KeyCode :| up.Offset() == config.shiftUpOffset;
    var down: KeyCode :| down.Offset() == config.shiftDownOffset;
    var clutch: KeyCode :| clutch.Offset() == config.clutchOffset;
    var handbrake': KeyCode :| handbrake'.Offset() == config.handbrakeOffset;
    ButtonsFitByte(config, shiftUp, shiftDown, handbrake);
  }

  /** Auto-clutch with clutch on bit 6 and shift-up on bit 0: a shift-up sends 0x41. */
  lemma AutoClutchShiftUpExample(shiftDownOffset: int, handbrakeOffset: int)
    ensures Buttons(ButtonConfig(true, 0, shiftDownOffset, 6, handbrakeOffset), true, false, false) == 0x41
  {
  }

  /** `Int.toByte()`, read as an unsigned byte: the value modulo 256. */
  function LowByte(x: int): (b: byte)
    ensures b as int == x % 256
  {
    (x % 256) as byte
  }

  /**
   * The DATA payload: a zero byte, the buttons, brake and throttle truncated to
   * a byte, the scaled tilt big-endian (`scaledTilt shr 8`, then `scaledTilt`),
   * and six zero bytes. `brake` and `throttle` are the values after `toInt()`.
   */
  function DataPayload(buttons: bv32, brake: int, throttle: int, scaledTilt: int): (p: seq<byte>)
    ensures |p| == 12
    ensures p[0] == 0 && forall i :: 6 <= i < 12 ==> p[i] == 0
    ensures p[1] as int == buttons as int % 256
    ensures p[2] as int == brake % 256 && p[3] as int == throttle % 256
    ensures p[4] as int == (scaledTilt / 256) % 256 && p[5] as int == scaledTilt % 256
  {
    [ 0, LowByte(buttons as int),
      LowByte(brake), LowByte(throttle),
      LowByte(scaledTilt / 256), LowByte(scaledTilt),
      0, 0,
      0, 0,
      0, 0 ]
  }

  /** A buttons value below 256 reaches the wire unchanged in byte 1. */
  lemma ButtonsByteExact(buttons: bv32, brake: int, throttle: int, scaledTilt: int)
    requires buttons < 256
    ensures DataPayload(buttons, brake, throttle, scaledTilt)[1] as int == buttons as int
  {
    assert buttons as int < 256;
  }

  /** A receiver reading bytes 4 and 5 as a signed big-endian 16-bit value. */
  function Signed16(high: byte, low: byte): (v: int)
    ensures -32768 <= v <= 32767
  {
    var u := high as int * 256 + low as int;
    if u >= 32768 then u - 65536 else u
  }

  /** Big-endian two's-complement split of a 16-bit value, on integers. */
  lemma SplitSigned16(t: int, high: int, low: int)
    requires -32768 <= t <= 32767
    requires high == (t / 256) % 256 && low == t % 256
    ensures (if high * 256 + low >= 32768 then high * 256 + low - 65536 else high * 256 + low) == t
  {
    var q := t / 256;
    assert t == 256 * q + low;
    assert -128 <= q < 128;
    if q < 0 {
      assert high == q + 256;
    } else {
      assert high == q;
    }
  }

  /** Tilt survives the wire for every value a signed 16-bit field holds. */
  lemma TiltRoundTrip(buttons: bv32, brake: int, throttle: int, scaledTilt: int)
    requires -32768 <= scaledTilt <= 32767
    ensures var p := DataPayload(buttons, brake, throttle, scaledTilt);
            Signed16(p[4], p[5]) == scaledTilt
  {
    var p := DataPayload(buttons, brake, throttle, scaledTilt);
    var high, low := p[4] as int, p[5] as int;
    SplitSigned16(scaledTilt, high, low);
  }

  /** Brake and throttle in 0..255 reach the wire unchanged. */
  lemma ByteAxesExact(buttons: bv32, brake: int, throttle: int, scaledTilt: int)
    requires 0 <= brake < 256 && 0 <= throttle < 256
    ensures var p := DataPayload(buttons, brake, throttle, scaledTilt);
            p[2] as int == brake && p[3] as int == throttle
  {
  }

  /** Stored offset, or the current one when the key is missing or unreadable. */
  function Loaded(stored: Result<Option<KeyCode>, EnumError>, current: int): (offset: int)
    ensures stored == Ok(None) || stored.Err? ==> offset == current
    ensures stored.Ok? && stored.value.Some? ==> offset == stored.value.value.Offset()
  {
    match stored
    case Ok(Some(k)) => k.Offset()
    case _ => current
  }

  /**
   * The mapping after the stored settings are read over `current`, and the
   * error that ended the reading early, if any: the auto-clutch flag, then the
   * clutch, shift-up, shift-down and handbrake key codes; a key code that does
   * not decode leaves it and every later one as it was.
   */
  function Load(current: ButtonConfig, flag: Option<bool>,
                clutch: Result<Option<KeyCode>, EnumError>, shiftUp: Result<Option<KeyCode>, EnumError>,
                shiftDown: Result<Option<KeyCode>, EnumError>, handbrake: Result<Option<KeyCode>, EnumError>)
    : (r: (ButtonConfig, Option<EnumError>))
    ensures r.0.autoClutch == Or(flag, current.autoClutch)
    ensures r.1.None? <==> clutch.Ok? && shiftUp.Ok? && shiftDown.Ok? && handbrake.Ok?
    ensures r.1 == Some(clutch.error) <== clutch.Err?
    ensures r.1 == Some(shiftUp.error) <== clutch.Ok? && shiftUp.Err?
    ensures r.1 == Some(shiftDown.error) <== clutch.Ok? && shiftUp.Ok? && shiftDown.Err?
    ensures r.1 == Some(handbrake.error) <== clutch.Ok? && shiftUp.Ok? && shiftDown.Ok? && handbrake.Err?
    ensures r.0.clutchOffset == Loaded(clutch, current.clutchOffset)
    ensures r.0.shiftUpOffset == if clutch.Err? then current.shiftUpOffset
                                 else Loaded(shiftUp, current.shiftUpOffset)
    ensures r.0.shiftDownOffset == if clutch.Err? || shiftUp.Err? then current.shiftDownOffset
                                   else Loaded(shiftDown, current.shiftDownOffset)
    ensures r.0.handbrakeOffset == if clutch.Err? || shiftUp.Err? || shiftDown.Err? then current.handbrakeOffset
                                   else Loaded(handbrake, current.handbrakeOffset)
  {
    var c1 := current.(autoClutch := Or(flag, current.autoClutch));
    if clutch.Err? then (c1, Some(clutch.error)) else
    var c2 := c1.(clutchOffset := Loaded(clutch, c1.clutchOffset));
    if shiftUp.Err? then (c2, Some(shiftUp.error)) else
    var c3 := c2.(shiftUpOffset := Loaded(shiftUp, c2.shiftUpOffset));
    if shiftDown.Err? then (c3, Some(shiftDown.error)) else
    var c4 := c3.(shiftDownOffset := Loaded(shiftDown, c3.shiftDownOffset));
    if handbrake.Err? then (c4, Some(handbrake.error)) else
    (c4.(handbrakeOffset := Loaded(handbrake, c4.handbrakeOffset)), None)
  }

  /** A stored key code replaces a key-code offset with another one. */
  lemma LoadedKeyOffset(stored: Result<Option<KeyCode>, EnumError>, current: int)
    requires IsKeyOffset(current)
    ensures IsKeyOffset(Loaded(stored, current))
  {
    if stored.Ok? && stored.value.Some? {
      var k := stored.value.value;
      assert k.Offset() == Loaded(stored, current);
    }
  }

  /** Reading the stored settings keeps every offset a key-code offset. */
  lemma LoadKeepsKeyOffsets(current: ButtonConfig, flag: Option<bool>,
                            clutch: Result<Option<KeyCode>, EnumError>, shiftUp: Result<Option<KeyCode>, EnumError>,
                            shiftDown: Result<Option<KeyCode>, EnumError>, handbrake: Result<Option<KeyCode>, EnumError>)
    requires KeyOffsets(current)
    ensures KeyOffsets(Load(current, flag, clutch, shiftUp, shiftDown, handbrake).0)
  {
    LoadedKeyOffset(clutch, current.clutchOffset);
    LoadedKeyOffset(shiftUp, current.shiftUpOffset);
    LoadedKeyOffset(shiftDown, current.shiftDownOffset);
    LoadedKeyOffset(handbrake, current.handbrakeOffset);
  }

  /**
   * One paddle's block of `transmit`: when pressed, or in the clutch bit if
   * auto-clutch is on, then the paddle's own bit.
   */
  method PressPaddle(buttons: bv32, pressed: bool, autoClutch: bool, clutch: bv5, count: bv5)
    returns (result: bv32)
    ensures result == Shifted(buttons, pressed, autoClutch, clutch, count)
  {
    result := buttons;
    if pressed {
      if autoClutch {
        result := result | Bit(clutch);
      }
      result := result | Bit(count);
    }
  }

  /** The handbrake's block of `transmit`: or in its bit when pulled. */
  method PressButton(buttons: bv32, pressed: bool, count: bv5) returns (result: bv32)
    ensures result == SetIf(buttons, pressed, count)
  {
    result := buttons;
    if pressed {
      result := result | Bit(count);
    }
  }

  /** What the `tryLaunch` blocks report on the error flow. */
  datatype ControllerError = NetworkFailure(cause: ClientError) | PreferencesFailure(reason: EnumError)

  class ControllerViewModel {
    const device: Device
    const client: NetworkClient
    var autoClutch: bool
    var shiftUpOffset: int
    var shiftDownOffset: int
    var clutchOffset: int
    var handbrakeOffset: int
    /** The last error a launched block reported (`_error`). */
    var error: Option<ControllerError>

    ghost predicate Valid()
      reads this, client
    {
      client.Valid() && KeyOffsets(Config())
    }

    function Config(): ButtonConfig
      reads this
    {
      ButtonConfig(autoClutch, shiftUpOffset, shiftDownOffset, clutchOffset, handbrakeOffset)
    }

    /**
     * Construction: the mapping starts at the defaults, the stored settings are
     * read over it, then the link connects. `faults` and `replies` script the
     * socket the client opens.
     */
    constructor (device: Device, preferences: PreferencesRepository, defaults: Defaults,
                 faults: seq<Option<SendFault>>, replies: seq<Reply>)
      ensures Valid() && fresh(client)
      ensures this.device == device && client.host == device.host && client.port == device.port
      ensures var (config, failure) :=
                Load(defaults.Config(), preferences.GetAutoClutch(), preferences.GetKeyCode(Clutch),
                     preferences.GetKeyCode(ShiftUp), preferences.GetKeyCode(ShiftDown),
                     preferences.GetKeyCode(Handbrake));
              var connect := if NextFault(faults).Some? then Fail(SendError(NextFault(faults).value))
                             else HandshakeOutcome(NextReply(replies));
              && Config() == config
              && error == if connect.Fail? then Some(NetworkFailure(connect.error))
                          else if failure.Some? then Some(PreferencesFailure(failure.value))
                          else None
      // the socket stays bound whether or not the handshake succeeds
      ensures client.connected && client.faults == Rest(faults)
      ensures client.sent == (if NextFault(faults).None? then [[1, 0x45, 0x45]] else [])
      ensures client.replies == (if NextFault(faults).None? then Rest(replies) else replies)
    {
      this.device := device;
      client := new NetworkClient(device.host, device.port, faults, replies);
      autoClutch := defaults.autoClutch;
      shiftUpOffset := defaults.shiftUp.Offset();
      shiftDownOffset := defaults.shiftDown.Offset();
      clutchOffset := defaults.clutch.Offset();
      handbrakeOffset := defaults.handbrake.Offset();
      error := None;
      new;
      LoadKeepsKeyOffsets(Config(), preferences.GetAutoClutch(), preferences.GetKeyCode(Clutch),
                          preferences.GetKeyCode(ShiftUp), preferences.GetKeyCode(ShiftDown),
                          preferences.GetKeyCode(Handbrake));
      var failure := LoadPreferences(preferences);
      if failure.Some? {
        error := Some(PreferencesFailure(failure.value));
      }
      var r := client.Connect();
      assert [Message.Connect.Tag()] + ConnectMagic == [1, 0x45, 0x45];
      if r.Fail? {
        error := Some(NetworkFailure(r.error));
      }
    }

    /**
     * The block launched by `init`: each stored setting that is present replaces
     * the current one, in the order auto-clutch, clutch, shift-up, shift-down,
     * handbrake; a stored ordinal that does not decode ends the block there.
     */
    method LoadPreferences(preferences: PreferencesRepository) returns (failure: Option<EnumError>)
      modifies this
      ensures error == old(error)
      ensures (Config(), failure) ==
                Load(old(Config()), preferences.GetAutoClutch(), preferences.GetKeyCode(Clutch),
                     preferences.GetKeyCode(ShiftUp), preferences.GetKeyCode(ShiftDown),
                     preferences.GetKeyCode(Handbrake))
    {
      var flag := preferences.GetAutoClutch();
      var clutch := preferences.GetKeyCode(Clutch);
      var shiftUp := preferences.GetKeyCode(ShiftUp);
      var shiftDown := preferences.GetKeyCode(ShiftDown);
      var handbrake := preferences.GetKeyCode(Handbrake);
      failure := ApplyStored(flag, clutch, shiftUp, shiftDown, handbrake);
    }

    /** The assignments of the `init` block, given the values it reads. */
    method ApplyStored(flag: Option<bool>,
                       clutch: Result<Option<KeyCode>, EnumError>, shiftUp: Result<Option<KeyCode>, EnumError>,
                       shiftDown: Result<Option<KeyCode>, EnumError>, handbrake: Result<Option<KeyCode>, EnumError>)
      returns (failure: Option<EnumError>)
      modifies this
      ensures error == old(error)
      ensures (Config(), failure) == Load(old(Config()), flag, clutch, shiftUp, shiftDown, handbrake)
    {
      if flag.Some? {
        autoClutch := flag.value;
      }
      if clutch.Err? {
        return Some(clutch.error);
      } else if clutch.value.Some? {
        clutchOffset := clutch.value.value.Offset();
      }
      if shiftUp.Err? {
        return Some(shiftUp.error);
      } else if shiftUp.value.Some? {
        shiftUpOffset := shiftUp.value.value.Offset();
      }
      if shiftDown.Err? {
        return Some(shiftDown.error);
      } else if shiftDown.value.Some? {
        shiftDownOffset := shiftDown.value.value.Offset();
      }
      if handbrake.Err? {
        return Some(handbrake.error);
      } else if handbrake.value.Some? {
        handbrakeOffset := handbrake.value.value.Offset();
      }
      return None;
    }

    /**
     * `transmit`: builds the buttons value bit by bit and emits the DATA payload.
     * `brake` and `throttle` are the truncated axis values; `scaledTilt` is the
     * tilt after clamping and scaling.
     */
    method Transmit(shiftUp: bool, shiftDown: bool, handbrake: bool, brake: int, throttle: int, scaledTilt: int)
      returns (r: Outcome<ClientError>)
      requires Valid()
      modifies client, this`error
      ensures Valid()
      ensures Buttons(Config(), shiftUp, shiftDown, handbrake) < 256
      ensures client.connected == old(client.connected) && client.replies == old(client.replies)
      ensures !old(client.connected) ==>
                r == Fail(CannotEmit) && client.sent == old(client.sent) && client.faults == old(client.faults)
      ensures old(client.connected) ==> client.faults == Rest(old(client.faults))
      ensures old(client.connected) && NextFault(old(client.faults)).Some? ==>
                r == Fail(SendError(NextFault(old(client.faults)).value)) && client.sent == old(client.sent)
      ensures old(client.connected) && NextFault(old(client.faults)).None? ==>
                r == Pass
                && client.sent == old(client.sent)
                  + [DataFrame(DataPayload(Buttons(Config(), shiftUp, shiftDown, handbrake), brake, throttle, scaledTilt))]
      ensures error == if r.Fail? then Some(NetworkFailure(r.error)) else old(error)
    {
      KeyOffsetsFitByte(Config(), shiftUp, shiftDown, handbrake);
      var clutch := ShiftCount(clutchOffset);
      var buttons: bv32 := 0;
      buttons := PressPaddle(buttons, shiftUp, autoClutch, clutch, ShiftCount(shiftUpOffset));
      buttons := PressPaddle(buttons, shiftDown, autoClutch, clutch, ShiftCount(shiftDownOffset));
      buttons := PressButton(buttons, handbrake, ShiftCount(handbrakeOffset));
      r := client.Emit(DataPayload(buttons, brake, throttle, scaledTilt));
      if r.Fail? {
        error := Some(NetworkFailure(r.error));
      }
    }

    /** `ping`: the keep-alive; a failure is reported on the error flow. */
    method Ping() returns (r: Outcome<ClientError>)
      requires Valid()
      modifies client, this`error
      ensures Valid()
      ensures client.connected == old(client.connected)
      ensures !old(client.connected) ==>
                r == Fail(CannotPing) && client.sent == old(client.sent)
                && client.faults == old(client.faults) && client.replies == old(client.replies)
      ensures old(client.connected) ==> client.faults == Rest(old(client.faults))
      ensures old(client.connected) && NextFault(old(client.faults)).Some? ==>
                r == Fail(SendError(NextFault(old(client.faults)).value))
                && client.sent == old(client.sent) && client.replies == old(client.replies)
      ensures old(client.connected) && NextFault(old(client.faults)).None? ==>
                client.sent == old(client.sent) + [[Message.Ping.Tag()]]
                && client.replies == Rest(old(client.replies))
                && r == PingOutcome(NextReply(old(client.replies)))
      ensures error == if r.Fail? then Some(NetworkFailure(r.error)) else old(error)
    {
      r := client.Ping();
      if r.Fail? {
        error := Some(NetworkFailure(r.error));
      }
    }

    /** `onCleared`: the disconnect handshake; a failure is reported on the error flow. */
    method OnCleared() returns (r: Outcome<ClientError>)
      requires Valid()
      modifies client, this`error
      ensures Valid()
      ensures client.connected <==> old(client.connected) && r.Fail?
      ensures !old(client.connected) ==>
                r == Fail(CannotDisconnect) && client.sent == old(client.sent)
                && client.faults == old(client.faults) && client.replies == old(client.replies)
      ensures old(client.connected) ==> client.faults == Rest(old(client.faults))
      ensures old(client.connected) && NextFault(old(client.faults)).Some? ==>
                r == Fail(SendError(NextFault(old(client.faults)).value))
                && client.sent == old(client.sent) && client.replies == old(client.replies)
      ensures old(client.connected) && NextFault(old(client.faults)).None? ==>
                client.sent == old(client.sent) + [[Message.Disconnect.Tag()]]
                && client.replies == Rest(old(client.replies))
                && r == DisconnectOutcome(NextReply(old(client.replies)))
      ensures error == if r.Fail? then Some(NetworkFailure(r.error)) else old(error)
    {
      r := client.Disconnect();
      if r.Fail? {
        error := Some(NetworkFailure(r.error));
      }
    }
  }
}
