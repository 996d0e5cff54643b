# ArkPad core in Dafny

ArkPad is an Android app that turns a phone into a game controller for a PC
receiver. It talks to the receiver over UDP. This project models the app's core:

- **Network** (`NetworkClient.kt`): the datagram client. It has a one-byte
  message tag, one-byte response codes, and the connect / disconnect / ping
  handshakes. Every failure maps to a client error. The client is a class
  over an abstract socket, which holds:
  - a connected flag;
  - the log of datagrams sent;
  - a script of send faults (failures to deliver);
  - a script of replies, where a missing reply is a timeout.
- **Controller** (`ControllerViewModel.kt`): the button mapping read from the
  preferences, and `transmit`. `transmit` ORs the pressed buttons' bits into
  an Int, encodes the 12-byte DATA payload and emits it.
- **Preferences** (`PreferencesRepository.kt`): the key-code and easing enums,
  their ordinal encoding and `entryAt` decoding, and a key/value store with
  typed getters and setters.
- **Util** (`Util.kt`): `enumEntryAt` and the `or` default for a missing value.
- **DeviceInput** (`DeviceInput.kt`): port validation through `toInt()`, the
  "Add" button's enabled rule, and the `Device` it builds.
- **LimitedTextField** (`LimitedTextField.kt`): truncation to `maxLength`, the
  error flag and the counter text.
- **Selection** (`multiselect/MultiSelectableList.kt`) and **LegacySelection**
  (`components/MultiSelectableList.kt`): the two selection state machines for
  the device list.
- **KotlinText**, **KotlinBits** and **KotlinList**: the Kotlin library
  behaviour the core relies on.
  - `String.toInt()` / `toIntOrNull()`, `Int.toString()`, `take`, `isBlank`.
  - `1 shl n` on a 32-bit Int, which uses `n mod 32`.
  - `MutableList.add` / `remove`.

Wire bytes are a `byte` newtype over 0..255. Kotlin's `toByte()` is
truncation modulo 256, written out explicitly. The high tilt byte is
`scaledTilt shr 8`, an arithmetic shift, which equals Euclidean division by
256 for negative values too.

Three behaviours of the code on the link and its teardown:

- **A failed handshake leaves the client connected.** `socket.connect` at
  NetworkClient.kt:85 binds the socket before the handshake and is never
  undone. So after a refused handshake, or one with no reply or a send fault,
  `isConnected` stays true, and a second `connect` fails as "already
  connected" (`Network.RefusedHandshake`).
- **A failed disconnect leaves the client connected.** `socket.disconnect()`
  runs only after a `DISCONNECTED` reply.
- **Teardown errors are reported.** The teardown disconnect runs through
  `tryLaunch`, which stores its error in the error flow; `OnCleared` records
  it the same way.

## Model

| member | source | states |
|---|---|---|
| Util.EnumEntryAt | app/src/main/java/com/ark/arkpad/Util.kt:16-20 | an in-range index gives the entry at that index; any other index, negative or too large, is the out-of-bounds error for that index |
| Util.Ordinal | app/src/main/java/com/ark/arkpad/preferences/PreferencesRepository.kt:84 | the ordinal is a valid index holding the entry, and no earlier position holds it |
| Util.EntryAtOrdinal | app/src/main/java/com/ark/arkpad/Util.kt:16-20 | looking an entry up at its ordinal gives the entry back |
| Util.OrdinalOfEntryAt | app/src/main/java/com/ark/arkpad/Util.kt:16-20 | for distinct entries, the entry at index i has ordinal i (the reverse round trip) |
| Util.Or | app/src/main/java/com/ark/arkpad/Util.kt:23-25 | a missing value reads as the default; a present value passes through unchanged |
| KotlinText.ParseInt | app/src/main/java/com/ark/arkpad/ui/screens/home/DeviceInput.kt:50 | `toInt()`: empty input is rejected; a result is a 32-bit Int, non-positive when signed with '-' and non-negative otherwise |
| KotlinText.ParseDigits | app/src/main/java/com/ark/arkpad/ui/screens/home/DeviceInput.kt:50 | unsigned digits read as their decimal value when it is at most 2^31-1, and as null when it is larger |
| KotlinText.ParseSigned | app/src/main/java/com/ark/arkpad/ui/screens/home/DeviceInput.kt:50 | '-' then digits reads as minus their value down to -2^31, '+' then digits as their value up to 2^31-1, and either reads as null beyond that |
| KotlinText.ParseRejectsNonDigit | app/src/main/java/com/ark/arkpad/ui/screens/home/DeviceInput.kt:50 | a sign alone, or any non-digit after the optional leading sign, reads as null |
| KotlinText.IsBlank | app/src/main/java/com/ark/arkpad/ui/screens/home/DeviceInput.kt:82 | the empty string is blank, and a string is blank exactly when every character in it is whitespace |
| KotlinText.DecimalString | app/src/main/java/com/ark/arkpad/ui/components/LimitedTextField.kt:44 | `Int.toString()` of a count: non-empty digits, no leading zero, whose value is the count |
| KotlinText.DecimalStringRoundTrip | app/src/main/java/com/ark/arkpad/ui/components/LimitedTextField.kt:44 | parsing a rendered Int gives the Int back |
| KotlinText.Take | app/src/main/java/com/ark/arkpad/ui/components/LimitedTextField.kt:38 | `take(n)` is the prefix of length min(len, n), and the whole string when it is no longer than n |
| KotlinBits.BitSetSetIf | app/src/main/java/com/ark/arkpad/ui/screens/controller/ControllerViewModel.kt:107-109 | a conditional `buttons or (1 shl n)` sets bit n mod 32 exactly when pressed and changes no other bit |
| KotlinBits.SetIfBelowByte | app/src/main/java/com/ark/arkpad/ui/screens/controller/ControllerViewModel.kt:107-109 | setting a bit below 8 in a value below 256 keeps it below 256 |
| KotlinList.RemoveFirst | app/src/main/java/com/ark/arkpad/ui/components/multiselect/MultiSelectableList.kt:124 | `remove(x)` drops exactly one x when present, as a multiset, and leaves the list unchanged otherwise |
| KotlinList.RemoveFirstAt | app/src/main/java/com/ark/arkpad/ui/components/multiselect/MultiSelectableList.kt:124 | the element dropped is the one at x's first position, and the others keep their order |
| KotlinList.RemoveFirstDistinct | app/src/main/java/com/ark/arkpad/ui/components/multiselect/MultiSelectableList.kt:119-127 | on a duplicate-free list, removing x leaves no x, no duplicate, and every other member |
| KotlinList.Toggle | app/src/main/java/com/ark/arkpad/ui/components/multiselect/MultiSelectableList.kt:123-127 | a contained item is removed; an absent item is appended at the end |
| KotlinList.ToggleDistinct | app/src/main/java/com/ark/arkpad/ui/components/multiselect/MultiSelectableList.kt:119-127 | toggling never introduces a duplicate, flips the clicked item's membership and keeps every other item's |
| KotlinList.ToggleTwice | app/src/main/java/com/ark/arkpad/ui/components/multiselect/MultiSelectableList.kt:121-128 | two clicks on an item restore the selection as a multiset, and, when the item was not selected, the exact list |
| Preferences.EasingTypeOrdinal | app/src/main/java/com/ark/arkpad/preferences/PreferencesRepository.kt:17-21 | each easing type's ordinal is its position in declaration order |
| Preferences.KeyCodeOrdinal | app/src/main/java/com/ark/arkpad/preferences/PreferencesRepository.kt:39-45 | each key code's ordinal is its position in declaration order |
| Preferences.EasingTypeEntryAt | app/src/main/java/com/ark/arkpad/preferences/PreferencesRepository.kt:33-35 | succeeds exactly for indices 0..3 and returns the entry with that ordinal |
| Preferences.KeyCodeEntryAt | app/src/main/java/com/ark/arkpad/preferences/PreferencesRepository.kt:48-50 | succeeds exactly for indices 0..5 and returns the entry with that ordinal |
| Preferences.EasingTypeRoundTrip | app/src/main/java/com/ark/arkpad/preferences/PreferencesRepository.kt:131-133 | an easing type stored as its ordinal decodes back to itself |
| Preferences.KeyCodeRoundTrip | app/src/main/java/com/ark/arkpad/preferences/PreferencesRepository.kt:83-85 | a key code stored as its ordinal decodes back to itself |
| Preferences.KeyCode.Offset | app/src/main/java/com/ark/arkpad/preferences/PreferencesRepository.kt:39-45 | a key code's offset is a bit of one byte, never bit 2 or 3 |
| Preferences.KeyCodeOffsets | app/src/main/java/com/ark/arkpad/preferences/PreferencesRepository.kt:39-45 | every key-code offset is a bit below 8, and distinct key codes have distinct offsets |
| Preferences.KeyNamesDistinct | app/src/main/java/com/ark/arkpad/preferences/PreferencesRepository.kt:56-66 | the eleven preference keys have pairwise distinct names |
| Preferences.DecodeKeyCode | app/src/main/java/com/ark/arkpad/preferences/PreferencesRepository.kt:77-81 | a missing value is no key code; a stored ordinal in 0..5 decodes to the key code with that ordinal, and any other is the out-of-bounds error for that index |
| Preferences.DecodeEasingType | app/src/main/java/com/ark/arkpad/preferences/PreferencesRepository.kt:125-129 | a missing value is no easing; a stored ordinal in 0..3 decodes to the easing with that ordinal, and any other is the out-of-bounds error for that index |
| Preferences.Lookup | app/src/main/java/com/ark/arkpad/preferences/PreferencesRepository.kt:69-71 | a key reads as present exactly when the store holds its name, and then as the stored value |
| Preferences.PreferencesRepository.constructor | app/src/main/java/com/ark/arkpad/preferences/PreferencesRepository.kt:54 | the repository wraps the given store contents |
| Preferences.PreferencesRepository.GetKeyCode | app/src/main/java/com/ark/arkpad/preferences/PreferencesRepository.kt:77-111 | an absent key gives no key code; a stored ordinal in 0..5 gives the key code with that ordinal, and any other the out-of-bounds error for that index |
| Preferences.PreferencesRepository.SetKeyCode | app/src/main/java/com/ark/arkpad/preferences/PreferencesRepository.kt:83-115 | stores the ordinal under the button's key, changes nothing else, and the getter then returns the key code |
| Preferences.PreferencesRepository.GetAutoClutch | app/src/main/java/com/ark/arkpad/preferences/PreferencesRepository.kt:117-119 | the stored flag if present, otherwise nothing |
| Preferences.PreferencesRepository.SetAutoClutch | app/src/main/java/com/ark/arkpad/preferences/PreferencesRepository.kt:121-123 | stores the flag, changes nothing else, and the getter then returns it |
| Preferences.PreferencesRepository.GetEasing | app/src/main/java/com/ark/arkpad/preferences/PreferencesRepository.kt:125-155 | an absent key gives no easing; a stored ordinal in 0..3 gives the easing with that ordinal, and any other the out-of-bounds error for that index |
| Preferences.PreferencesRepository.SetEasing | app/src/main/java/com/ark/arkpad/preferences/PreferencesRepository.kt:131-159 | stores the ordinal under the axis's easing key, changes nothing else, and the getter then returns it |
| Preferences.PreferencesRepository.GetSustain | app/src/main/java/com/ark/arkpad/preferences/PreferencesRepository.kt:135-163 | the axis's stored sustain if present, otherwise nothing |
| Preferences.PreferencesRepository.SetSustain | app/src/main/java/com/ark/arkpad/preferences/PreferencesRepository.kt:139-167 | stores the sustain, changes nothing else, and the getter then returns it |
| Preferences.PreferencesRepository.GetRelease | app/src/main/java/com/ark/arkpad/preferences/PreferencesRepository.kt:143-171 | the axis's stored release if present, otherwise nothing |
| Preferences.PreferencesRepository.SetRelease | app/src/main/java/com/ark/arkpad/preferences/PreferencesRepository.kt:147-175 | stores the release, changes nothing else, and the getter then returns it |
| Preferences.OtherKeysUnchanged | app/src/main/java/com/ark/arkpad/preferences/PreferencesRepository.kt:73-75 | writing one key leaves every other key's value as it was |
| Network.FirstWithCode | app/src/main/java/com/ark/arkpad/ui/screens/controller/NetworkClient.kt:27-28 | finds an entry exactly when some entry has the code, and the entry found has that code |
| Network.TryFrom | app/src/main/java/com/ark/arkpad/ui/screens/controller/NetworkClient.kt:26-30 | succeeds exactly for the five response codes, with the response of that code; otherwise the invalid-code error |
| Network.ResponseRoundTrip | app/src/main/java/com/ark/arkpad/ui/screens/controller/NetworkClient.kt:18-30 | every response decodes from its own code |
| Network.MessageFromTag | app/src/main/java/com/ark/arkpad/ui/screens/controller/NetworkClient.kt:11-16 | a tag names a message exactly when it is 1, 2, 4 or 8 |
| Network.FrameRoundTrip | app/src/main/java/com/ark/arkpad/ui/screens/controller/NetworkClient.kt:50-55 | a frame splits back into its message and payload, with a missing payload read as empty |
| Network.Frame | app/src/main/java/com/ark/arkpad/ui/screens/controller/NetworkClient.kt:50-54 | the datagram is the message tag followed by the payload, or by nothing when there is none |
| Network.ReplyCode | app/src/main/java/com/ark/arkpad/ui/screens/controller/NetworkClient.kt:68-78 | an empty datagram leaves the one-byte buffer at 0, which is no response code; otherwise the code is the first byte |
| Network.SendError | app/src/main/java/com/ark/arkpad/ui/screens/controller/NetworkClient.kt:56-65 | every send fault surfaces as a client exception |
| Network.Decode | app/src/main/java/com/ark/arkpad/ui/screens/controller/NetworkClient.kt:68-78 | no reply is the no-response error; a datagram decodes the code in its first byte |
| Network.HandshakeOutcome | app/src/main/java/com/ark/arkpad/ui/screens/controller/NetworkClient.kt:87-91 | success only on code 100; refusal exactly on 101; no reply, an invalid code and any other response each give their own error |
| Network.DisconnectOutcome | app/src/main/java/com/ark/arkpad/ui/screens/controller/NetworkClient.kt:106-108 | success only on code 200; no reply, an invalid code and any other response each give their own error |
| Network.PingOutcome | app/src/main/java/com/ark/arkpad/ui/screens/controller/NetworkClient.kt:117-119 | success only on code 202; no reply, an invalid code and any other response each give their own error |
| Network.NetworkClient.constructor | app/src/main/java/com/ark/arkpad/ui/screens/controller/NetworkClient.kt:36-45 | a new client is unconnected and has sent nothing |
| Network.NetworkClient.Send | app/src/main/java/com/ark/arkpad/ui/screens/controller/NetworkClient.kt:50-66 | the tag-prefixed frame is appended to the wire unless the send faults, which reports the mapped error and sends nothing |
| Network.NetworkClient.Receive | app/src/main/java/com/ark/arkpad/ui/screens/controller/NetworkClient.kt:68-78 | consumes one reply and returns its decoding, changing nothing else |
| Network.NetworkClient.Connect | app/src/main/java/com/ark/arkpad/ui/screens/controller/NetworkClient.kt:80-92 | when already connected, fails and touches nothing; otherwise connects, sends CONNECT with 0x45 0x45, and succeeds exactly on a success reply |
| Network.NetworkClient.Emit | app/src/main/java/com/ark/arkpad/ui/screens/controller/NetworkClient.kt:94-99 | when not connected, fails and sends nothing; otherwise sends one DATA frame with the payload and expects no reply |
| Network.NetworkClient.Disconnect | app/src/main/java/com/ark/arkpad/ui/screens/controller/NetworkClient.kt:101-110 | requires a connection, sends DISCONNECT, and becomes unconnected only on a DISCONNECTED reply |
| Network.NetworkClient.Ping | app/src/main/java/com/ark/arkpad/ui/screens/controller/NetworkClient.kt:112-120 | requires a connection, sends PING, succeeds only on PONG, and never changes the connection |
| Network.RefusedHandshake | app/src/main/java/com/ark/arkpad/ui/screens/controller/NetworkClient.kt:80-92 | after a refused handshake the client stays connected: a second connect is rejected and a ping is sent |
| Controller.BitSetShifted | app/src/main/java/com/ark/arkpad/ui/screens/controller/ControllerViewModel.kt:93-105 | a pressed paddle sets its own bit, and the clutch bit when auto-clutch is on; no other bit changes |
| Controller.Shifted | app/src/main/java/com/ark/arkpad/ui/screens/controller/ControllerViewModel.kt:93-105 | an unpressed paddle leaves the buttons value unchanged |
| Controller.Defaults.Config | app/src/main/java/com/ark/arkpad/ui/screens/controller/ControllerViewModel.kt:37-41 | the starting mapping is the default auto-clutch flag and the offsets of the four default key codes, so every offset is a key-code offset |
| Controller.LoadedKeyOffset | app/src/main/java/com/ark/arkpad/ui/screens/controller/ControllerViewModel.kt:45-49 | a stored key code replaces a key-code offset with another key-code offset |
| Controller.LoadKeepsKeyOffsets | app/src/main/java/com/ark/arkpad/ui/screens/controller/ControllerViewModel.kt:43-50 | reading the stored settings keeps every offset of the mapping a key-code offset |
| Controller.ButtonsBit | app/src/main/java/com/ark/arkpad/ui/screens/controller/ControllerViewModel.kt:91-109 | bit i of the buttons value is set exactly when some pressed control maps to it (the clutch only through a pressed paddle with auto-clutch) |
| Controller.ButtonsBits | app/src/main/java/com/ark/arkpad/ui/screens/controller/ControllerViewModel.kt:91-109 | the same characterisation for all 32 bits at once |
| Controller.Buttons | app/src/main/java/com/ark/arkpad/ui/screens/controller/ControllerViewModel.kt:91-109 | with nothing pressed the buttons value is 0 |
| Controller.ButtonsByteExact | app/src/main/java/com/ark/arkpad/ui/screens/controller/ControllerViewModel.kt:114 | a buttons value below 256 is byte 1 of the payload unchanged |
| Controller.ButtonsFitByte | app/src/main/java/com/ark/arkpad/ui/screens/controller/ControllerViewModel.kt:91-114 | with offsets below 8, as every key code has, the buttons value fits the payload's byte |
| Controller.KeyOffsetsFitByte | app/src/main/java/com/ark/arkpad/ui/screens/controller/ControllerViewModel.kt:91-114 | when every offset is one a key code gives, the buttons value is below 256, so `toByte()` loses no button |
| KotlinBits.ShiftCount | app/src/main/java/com/ark/arkpad/ui/screens/controller/ControllerViewModel.kt:95 | `shl` shifts by the offset modulo 32, the low five bits of the Int |
| Controller.AutoClutchShiftUpExample | app/src/main/java/com/ark/arkpad/ui/screens/controller/ControllerViewModel.kt:93-98 | shift-up on bit 0 with auto-clutch on bit 6 gives 0x41 |
| Controller.LowByte | app/src/main/java/com/ark/arkpad/ui/screens/controller/ControllerViewModel.kt:114-116 | `toByte()` keeps the value modulo 256 |
| Controller.DataPayload | app/src/main/java/com/ark/arkpad/ui/screens/controller/ControllerViewModel.kt:113-120 | 12 bytes: 0, the buttons value modulo 256, brake and throttle modulo 256, the tilt's high and low bytes, then six zeros |
| Controller.Signed16 | app/src/main/java/com/ark/arkpad/ui/screens/controller/ControllerViewModel.kt:116 | a receiver's reading of the two tilt bytes is a signed 16-bit value |
| Controller.SplitSigned16 | app/src/main/java/com/ark/arkpad/ui/screens/controller/ControllerViewModel.kt:116 | a 16-bit value's high and low bytes recombine to the value |
| Controller.TiltRoundTrip | app/src/main/java/com/ark/arkpad/ui/screens/controller/ControllerViewModel.kt:116 | the payload's bytes 4 and 5 read back as the scaled tilt |
| Controller.ByteAxesExact | app/src/main/java/com/ark/arkpad/ui/screens/controller/ControllerViewModel.kt:115 | brake and throttle within 0..255 travel unchanged |
| Controller.Loaded | app/src/main/java/com/ark/arkpad/ui/screens/controller/ControllerViewModel.kt:46-49 | a stored key code replaces the offset with its own; a missing one keeps the current offset |
| Controller.Load | app/src/main/java/com/ark/arkpad/ui/screens/controller/ControllerViewModel.kt:43-50 | settings apply in the order auto-clutch, clutch, shift-up, shift-down, handbrake; the first undecodable one is reported and stops the rest |
| Controller.PressPaddle | app/src/main/java/com/ark/arkpad/ui/screens/controller/ControllerViewModel.kt:93-105 | the imperative paddle step computes the paddle stage of the buttons value |
| Controller.PressButton | app/src/main/java/com/ark/arkpad/ui/screens/controller/ControllerViewModel.kt:107-109 | the handbrake step sets its bit exactly when pressed |
| Controller.ControllerViewModel.constructor | app/src/main/java/com/ark/arkpad/ui/screens/controller/ControllerViewModel.kt:37-53 | the mapping is the default key codes with the stored settings read over them; the client is connected whatever the handshake gives, has sent the CONNECT frame unless the send faulted, and has used one fault and, when the frame went out, one reply; the error flow holds the connect failure if any, else the settings failure if any, else nothing |
| Controller.ControllerViewModel.LoadPreferences | app/src/main/java/com/ark/arkpad/ui/screens/controller/ControllerViewModel.kt:43-50 | the new mapping and failure are `Load` of the repository's values over the old mapping |
| Controller.ControllerViewModel.ApplyStored | app/src/main/java/com/ark/arkpad/ui/screens/controller/ControllerViewModel.kt:44-49 | the field-by-field early-exit updates equal `Load` |
| Controller.ControllerViewModel.Transmit | app/src/main/java/com/ark/arkpad/ui/screens/controller/ControllerViewModel.kt:82-123 | the buttons value fits one byte; unconnected, fails with CannotEmit and touches nothing; connected, uses one send fault, and either fails with that fault's error and sends nothing, or succeeds with exactly one DATA frame of the current mapping's payload; replies and connection are untouched; a failure is recorded as the error |
| Controller.ControllerViewModel.Ping | app/src/main/java/com/ark/arkpad/ui/screens/controller/ControllerViewModel.kt:125-127 | unconnected, fails with CannotPing and touches nothing; connected, uses one send fault, and either fails with that fault's error, or sends PING, uses one reply and ends as that reply's ping outcome; the connection is unchanged and a failure is recorded as the error |
| Controller.ControllerViewModel.OnCleared | app/src/main/java/com/ark/arkpad/ui/screens/controller/ControllerViewModel.kt:129-132 | unconnected, fails with CannotDisconnect and touches nothing; connected, uses one send fault, and either fails with that fault's error, or sends DISCONNECT, uses one reply and ends as that reply's disconnect outcome; the link ends unconnected exactly when it was connected and the disconnect succeeded; a failure is recorded as the error |
| DeviceInput.IsPortValid | app/src/main/java/com/ark/arkpad/ui/screens/home/DeviceInput.kt:48-54 | valid exactly when `toInt()` succeeds with a value in 0..65535; a string it rejects is invalid, not an error |
| DeviceInput.AddEnabled | app/src/main/java/com/ark/arkpad/ui/screens/home/DeviceInput.kt:82 | enabled exactly when the name is not blank (so not empty) and host and port are valid |
| DeviceInput.TypeDevice | app/src/main/java/com/ark/arkpad/ui/screens/home/DeviceInput.kt:61-135 | the three fields keep 32, 15 and 5 characters of what is typed; "Add" is enabled on the kept text, and a confirmed device has the kept name and host, within their limits, and the port the kept port text reads as, in 0..65535 |
| DeviceInput.ConfirmedDevice | app/src/main/java/com/ark/arkpad/ui/screens/home/DeviceInput.kt:79-82 | while enabled, the device has the typed name and host and the parsed port, which is in 0..65535 |
| DeviceInput.ValidPortAccepted | app/src/main/java/com/ark/arkpad/ui/screens/home/DeviceInput.kt:48-54 | every port written in decimal fits the 5-character field and is accepted |
| DeviceInput.ConfirmRoundTrip | app/src/main/java/com/ark/arkpad/ui/screens/home/DeviceInput.kt:79-82 | typing a port's decimal form enables Add, and the device carries that port |
| DeviceInput.ShortDigitsParse | app/src/main/java/com/ark/arkpad/ui/screens/home/DeviceInput.kt:48-54 | up to five digits never overflow Int, and are valid exactly when at most 65535 |
| DeviceInput.RejectedPorts | app/src/main/java/com/ark/arkpad/ui/screens/home/DeviceInput.kt:48-54 | "", "-1", "65536", "80a" and "-" are invalid |
| DeviceInput.SignedPortsAccepted | app/src/main/java/com/ark/arkpad/ui/screens/home/DeviceInput.kt:48-54 | a sign is accepted: "-0" is port 0 and "+80" is port 80 |
| LimitedTextField.TextField.constructor | app/src/main/java/com/ark/arkpad/ui/screens/home/DeviceInput.kt:61-63 | a field starts empty, within its limit |
| LimitedTextField.TextField.OnValueChange | app/src/main/java/com/ark/arkpad/ui/components/LimitedTextField.kt:38 | the stored text is the first min(len, maxLength) characters of the edit, and an edit within the limit is kept whole |
| LimitedTextField.IsError | app/src/main/java/com/ark/arkpad/ui/components/LimitedTextField.kt:46 | an empty or valid text never shows an error; a non-empty invalid text always does |
| LimitedTextField.Counter | app/src/main/java/com/ark/arkpad/ui/components/LimitedTextField.kt:44 | the supporting text is the text's length in decimal, " / ", then the limit in decimal |
| LimitedTextField.CounterReadsBack | app/src/main/java/com/ark/arkpad/ui/components/LimitedTextField.kt:44 | the counter splits at " / " into the text's length and the limit |
| LimitedTextField.CounterWithinLimit | app/src/main/java/com/ark/arkpad/ui/components/LimitedTextField.kt:38-44 | for a field within its limit, the counter's first number never exceeds the limit |
| Selection.MultiSelectableList.constructor | app/src/main/java/com/ark/arkpad/ui/screens/home/HomeScreen.kt:37-38 | the screen starts with nothing selected, outside selection mode |
| Selection.MultiSelectableList.Click | app/src/main/java/com/ark/arkpad/ui/components/multiselect/MultiSelectableList.kt:121-132 | in selection mode, toggles the item and stays in the mode; outside it, opens the item and changes nothing; never creates a duplicate |
| Selection.MultiSelectableList.LongClick | app/src/main/java/com/ark/arkpad/ui/components/multiselect/MultiSelectableList.kt:134-139 | outside selection mode, selects the item and enters the mode; in selection mode, changes nothing |
| Selection.MultiSelectableList.ClearSelection | app/src/main/java/com/ark/arkpad/ui/screens/home/HomeScreen.kt:51-54 | empties the selection and leaves selection mode |
| Selection.DeselectLast | app/src/main/java/com/ark/arkpad/ui/components/multiselect/MultiSelectableList.kt:121-139 | deselecting the only selected item leaves an empty selection, still in selection mode |
| Selection.OpenThenSelect | app/src/main/java/com/ark/arkpad/ui/components/multiselect/MultiSelectableList.kt:121-139 | a plain click opens the item; after a long click, other items are added in click order and the same item is deselected |
| LegacySelection.MultiSelectableList.InSelectionMode | app/src/main/java/com/ark/arkpad/ui/components/MultiSelectableList.kt:92 | selection mode holds exactly when some item is selected |
| LegacySelection.MultiSelectableList.constructor | app/src/main/java/com/ark/arkpad/ui/components/MultiSelectableList.kt:85-92 | an empty selection, so not in selection mode |
| LegacySelection.MultiSelectableList.Click | app/src/main/java/com/ark/arkpad/ui/components/MultiSelectableList.kt:101-111 | in selection mode, toggles the item; outside it, opens the item; deselecting the only item leaves selection mode |
| LegacySelection.MultiSelectableList.LongClick | app/src/main/java/com/ark/arkpad/ui/components/MultiSelectableList.kt:112-116 | outside selection mode, selecting the item enters the mode; in the mode, changes nothing |
| LegacySelection.DeselectLast | app/src/main/java/com/ark/arkpad/ui/components/MultiSelectableList.kt:101-116 | long-click then click on one item leaves selection mode, so the next click opens it |

## Left out

- Real sockets: DNS resolution (`Inet4Address.getByName`), `reuseAddress`, the 5000 ms read timeout and the OS socket. The socket is a connected flag, a sent log, scripted send faults and scripted replies; a timeout is a missing reply.
- The `host` and `port` the client is built with are recorded, not resolved or checked.
- An unresolvable host makes `connect` throw from `getByName`. This path is not modelled.
- Coroutines: `tryLaunch`, the dispatcher, the `NonCancellable` supervisor scope of the teardown disconnect, and the ordering between `init`'s preference load and its connect. The model loads the preferences, then connects.
- The 20 ms transmit loop and the 5 s ping loop belong to the UI screen, which is not part of this model.
- Float arithmetic:
  - the tilt clamp and scale at ControllerViewModel.kt:90, so `Transmit` takes the already-scaled integer tilt;
  - the float brake and throttle, whose `toInt()` is taken as given, so integers are passed in;
  - the easing curves of `getEasingFunction`.
- `isHostValid` calls Android's address matchers; its result is a parameter of `AddEnabled` and `ConfirmedDevice`.
- `toInt()` also accepts non-ASCII Unicode digits; the model accepts only '0'..'9'.
- String lengths count Dafny characters, not UTF-16 code units, so characters outside the Basic Multilingual Plane count once.
- A negative `maxLength` makes `take` throw; the model's limit is a natural number.
- A stored preference of the wrong type, which would throw a ClassCastException, is not modelled; the store keeps booleans and integers apart.
- The `DEFAULT_*` constants are defined in a file that is not part of this model, so the default auto-clutch flag and the four default key codes are a parameter of the view model's constructor.
- DataStore flows, Room, the device view model, navigation, theming, dialogs and toasts are not modelled.
- Click handlers read the selection when the click happens. The Compose code captures `isSelected` when the item is drawn; recomposition after every change keeps the two equal.
- Whole conversations on one client, such as connect, emit, ping and disconnect in sequence, are covered only by the per-call contracts and `Network.RefusedHandshake`.
