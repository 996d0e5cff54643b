/**
 * ui/screens/home/DeviceInput.kt: the "add device" dialog's validation. The
 * three text fields are limited to 32, 15 and 5 characters, the port must
 * read as an Int in 0..65535, and "Add" builds a `Device` from the fields.
 */
module DeviceInput {
  import opened Util
  import opened KotlinText
  import opened Model
  import opened LimitedTextField

  const NameMaxLength: nat := 32
  const HostMaxLength: nat := 15
  const PortMaxLength: nat := 5

  /** The largest UDP port. */
  const MaxPort: int := 65535

  /**
   * `isPortValid`: `toInt()` succeeds and the value is a port; a string that
   * `toInt()` rejects (empty, not a number, beyond Int) is invalid, not an error.
   */
  function IsPortValid(port: string): (valid: bool)
    ensures valid ==> ParseInt(port).Some? && 0 <= ParseInt(port).value <= MaxPort
    ensures !valid ==> ParseInt(port).None? || ParseInt(port).value < 0 || MaxPort < ParseInt(port).value
  {
    match ParseInt(port)
    case None => false
    case Some(v) => 0 <= v <= MaxPort
  }

  /**
   * The "Add" button's `enabled`. Host validity comes from Android's address
   * and domain-name matchers and is taken here as an input.
   */
  function AddEnabled(name: string, hostValid: bool, port: string): (enabled: bool)
    ensures enabled ==> name != [] && !IsBlank(name) && hostValid && IsPortValid(port)
    ensures !IsBlank(name) && hostValid && IsPortValid(port) ==> enabled
  {
    !IsBlank(name) && hostValid && IsPortValid(port)
  }

  /** The `Device` that "Add" confirms; the button only fires while enabled. */
  function ConfirmedDevice(name: string, host: string, port: string, hostValid: bool): (d: Device)
    requires AddEnabled(name, hostValid, port)
    ensures d.name == name && d.host == host
    ensures 0 <= d.port <= MaxPort && ParseInt(port) == Some(d.port)
  {
    Device(name, host, ParseInt(port).value)
  }

  /**
   * `DeviceInputDialog`: the name, host and port fields start empty and keep
   * 32, 15 and 5 characters of what is typed; "Add" is enabled on the kept
   * text and, when enabled, confirms a device built from it. `hostValid` is
   * the host check's verdict on the kept host text.
   */
  method TypeDevice(name: string, host: string, port: string, hostValid: bool)
    returns (enabled: bool, device: Option<Device>)
    ensures enabled == AddEnabled(Take(name, NameMaxLength), hostValid, Take(port, PortMaxLength))
    ensures device.Some? <==> enabled
    ensures device.Some? ==>
              && device.value.name == Take(name, NameMaxLength) && |device.value.name| <= NameMaxLength
              && device.value.host == Take(host, HostMaxLength) && |device.value.host| <= HostMaxLength
              && ParseInt(Take(port, PortMaxLength)) == Some(device.value.port) && 0 <= device.value.port <= MaxPort
  {
    var nameField := new TextField(NameMaxLength);
    var hostField := new TextField(HostMaxLength);
    var portField := new TextField(PortMaxLength);
    nameField.OnValueChange(name);
    hostField.OnValueChange(host);
    portField.OnValueChange(port);
    enabled := AddEnabled(nameField.text, hostValid, portField.text);
    device := None;
    if enabled {
      device := Some(ConfirmedDevice(nameField.text, hostField.text, portField.text, hostValid));
    }
  }

  /** Every port, typed the way `Int.toString()` writes it, fits the field and is accepted. */
  lemma ValidPortAccepted(n: nat)
    requires n <= MaxPort
    ensures |DecimalString(n)| <= PortMaxLength
    ensures IsPortValid(DecimalString(n))
  {
    DecimalStringLength(n, PortMaxLength);
    DecimalStringRoundTrip(n);
  }

  /** Typing a port into a dialog with a usable name and host yields a device with that port. */
  lemma ConfirmRoundTrip(name: string, host: string, n: nat)
    requires !IsBlank(name) && n <= MaxPort
    ensures AddEnabled(name, true, DecimalString(n))
    ensures ConfirmedDevice(name, host, DecimalString(n), true) == Device(name, host, n)
  {
    ValidPortAccepted(n);
    DecimalStringRoundTrip(n);
  }

  /**
   * The port field holds at most five characters, so a run of digits there
   * never overflows Int: it parses, and it is valid exactly when it is at
   * most 65535.
   */
  lemma {:induction false} ShortDigitsParse(port: string)
    requires 1 <= |port| <= PortMaxLength && AllDigits(port)
    ensures ParseInt(port) == Some(DigitsValue(port) as int)
    ensures IsPortValid(port) <==> DigitsValue(port) <= MaxPort
  {
    DigitsValueBound(port);
    assert Pow10(|port|) <= Pow10(PortMaxLength) by {
      Pow10Monotone(|port|, PortMaxLength);
    }
    assert port[0] != '-' && port[0] != '+' by { assert IsDigit(port[0]); }
  }

  /** Out-of-range and unparsable inputs are rejected, not thrown. */
  lemma RejectedPorts()
    ensures !IsPortValid("")
    ensures !IsPortValid("-1")
    ensures !IsPortValid("65536")
    ensures !IsPortValid("80a")
    ensures !IsPortValid("-")
  {
    assert "65536"[..4] == "6553" && "6553"[..3] == "655" && "655"[..2] == "65" && "65"[..1] == "6";
    assert DigitsValue("65536") == 65536;
    assert "-1"[1..] == "1";
    assert !IsDigit("80a"[2]);
  }

  /** `toInt()` accepts a sign, so "-0" and "+80" are valid ports (0 and 80). */
  lemma SignedPortsAccepted()
    ensures ParseInt("-0") == Some(0) && IsPortValid("-0")
    ensures ParseInt("+80") == Some(80) && IsPortValid("+80")
  {
    assert "-0"[1..] == "0";
    assert "+80"[1..] == "80" && "80"[..1] == "8";
    assert DigitsValue("80") == 80;
  }
}
