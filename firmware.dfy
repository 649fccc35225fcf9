/**
 * The ESP32 panel firmware (CelestialPanel): the newline framing of the
 * server link, the dispatch of decoded messages, configuration loading into
 * a fixed device table, the bounded error log, the routing of output
 * commands, and the state kept by the button, LED bar, seven-segment and
 * RGB strip drivers. Pins, the TCP client, the JSON library and millis()
 * are outside the model: readings, decoded messages and the clock come in
 * as parameters.
 */
module Firmware {
  import opened Wrappers
  import Framing
  import Text
  import MathUtils
  import Values

  const MaxDevices: nat := 32
  const MaxErrors: nat := 8
  const DebounceDelayMs: nat := 50
  const U32Modulus: nat := 0x1_0000_0000

  function Min(a: int, b: int): int { if a <= b then a else b }

  // ---------------------------------------------------------------------
  // Device types

  datatype DeviceType =
    | Button | Potentiometer | Encoder | RotarySwitch | Slider
    | Led | RgbStrip | SevenSegment | LedBar | Buzzer
    | Unknown

  /** The enum's numeric value, in declaration order. */
  function Ordinal(t: DeviceType): nat
  {
    match t
    case Button => 0
    case Potentiometer => 1
    case Encoder => 2
    case RotarySwitch => 3
    case Slider => 4
    case Led => 5
    case RgbStrip => 6
    case SevenSegment => 7
    case LedBar => 8
    case Buzzer => 9
    case Unknown => 10
  }

  /** `type <= DEVICE_SLIDER`: the types that become input devices. */
  predicate IsInputType(t: DeviceType)
  {
    Ordinal(t) <= Ordinal(Slider)
  }

  /** The configuration name of each known type. */
  function TypeName(t: DeviceType): string
    requires t != Unknown
  {
    match t
    case Button => "button"
    case Potentiometer => "potentiometer"
    case Encoder => "encoder"
    case RotarySwitch => "rotary_switch"
    case Slider => "slider"
    case Led => "led"
    case RgbStrip => "rgb_strip"
    case SevenSegment => "7segment"
    case LedBar => "led_bar"
    case Buzzer => "buzzer"
  }

  const KnownTypeNames: seq<string> :=
    ["button", "potentiometer", "encoder", "rotary_switch", "slider",
     "led", "rgb_strip", "7segment", "led_bar", "buzzer"]

  /** parseDeviceType: exactly the ten names are known; anything else is DEVICE_UNKNOWN. */
  function ParseDeviceType(s: string): (t: DeviceType)
    ensures t == Unknown <==> s !in KnownTypeNames
    ensures t != Unknown ==> TypeName(t) == s
  {
    if s == "button" then Button
    else if s == "potentiometer" then Potentiometer
    else if s == "encoder" then Encoder
    else if s == "rotary_switch" then RotarySwitch
    else if s == "slider" then Slider
    else if s == "led" then Led
    else if s == "rgb_strip" then RgbStrip
    else if s == "7segment" then SevenSegment
    else if s == "led_bar" then LedBar
    else if s == "buzzer" then Buzzer
    else Unknown
  }

  /** Parsing a known type's name gives that type back. */
  lemma ParseTypeName(t: DeviceType)
    requires t != Unknown
    ensures ParseDeviceType(TypeName(t)) == t
  {
  }

  /** Five types are inputs and five are outputs. */
  lemma InputOutputSplit(t: DeviceType)
    requires t != Unknown
    ensures IsInputType(t) <==> t in {Button, Potentiometer, Encoder, RotarySwitch, Slider}
  {
  }

  // ---------------------------------------------------------------------
  // Messages, as the JSON library hands them over

  datatype PanelStatus = Offline | Connecting | Configuring | Online | Error | Partial

  /** One entry of a configuration's "devices" array. */
  datatype DeviceSpec = DeviceSpec(id: string, typeName: string, pin: nat)

  /** A "panel_config" message's data; a missing "name" is None. */
  datatype ConfigData = ConfigData(panelId: string, name: Option<string>, devices: seq<DeviceSpec>)

  /** A "panel_output" message's data. */
  datatype OutputData = OutputData(panelId: string, deviceId: string, command: string, value: Values.Value)

  datatype PanelMessage =
    | ConfigMessage(config: ConfigData)
    | OutputMessage(output: OutputData)
    | HeartbeatAck
    | OtherMessage

  /** One row of the device table. */
  datatype DeviceConfig = DeviceConfig(id: string, dtype: DeviceType, pin: nat, enabled: bool)

  /** Where an output command goes: setValue or setCommand of the device in a table slot. */
  datatype Route =
    | NoRoute
    | SetValueOn(index: nat, value: Values.Value)
    | CommandOn(index: nat, command: string, value: Values.Value)

  datatype Effect = Ignored | StatusReported | Routed(route: Route)

  // ---------------------------------------------------------------------
  // Reference definitions

  /** The table row a known spec turns into; an unknown type yields none. */
  function Entry(s: DeviceSpec): seq<DeviceConfig>
  {
    var t := ParseDeviceType(s.typeName);
    if t == Unknown then [] else [DeviceConfig(s.id, t, s.pin, true)]
  }

  /** The rows of all known specs, in order. */
  function Installed(specs: seq<DeviceSpec>): (r: seq<DeviceConfig>)
    ensures |r| <= |specs|
    ensures forall i :: 0 <= i < |r| ==> r[i].dtype != Unknown && r[i].enabled
    decreases |specs|
  {
    if specs == [] then [] else Installed(specs[..|specs| - 1]) + Entry(specs[|specs| - 1])
  }

  /** Installing a prefix of the specs gives a prefix of the rows. */
  lemma {:induction false} InstalledPrefix(specs: seq<DeviceSpec>, k: nat)
    requires k <= |specs|
    ensures Installed(specs[..k]) <= Installed(specs)
    decreases |specs| - k
  {
    if k < |specs| {
      var front := specs[..|specs| - 1];
      assert front[..k] == specs[..k];
      InstalledPrefix(front, k);
    } else {
      assert specs[..k] == specs;
    }
  }

  /** The first enabled row with the given id. */
  function FindDevice(devs: seq<DeviceConfig>, id: string): (r: Option<nat>)
    ensures r.Some? ==> r.value < |devs| && devs[r.value].enabled && devs[r.value].id == id
    ensures r.Some? ==> forall j :: 0 <= j < r.value ==> !(devs[j].enabled && devs[j].id == id)
    ensures r.None? <==> forall j :: 0 <= j < |devs| ==> !(devs[j].enabled && devs[j].id == id)
  {
    if devs == [] then None
    else if devs[0].enabled && devs[0].id == id then Some(0)
    else match FindDevice(devs[1..], id)
      case None => None
      case Some(i) => Some(i + 1)
  }

  /**
   * The routing rule: only the first enabled row with the id is
   * considered; it acts only when the slot holds an output device; and
   * "set_value" is the only command sent to setValue.
   */
  function RouteFor(devs: seq<DeviceConfig>, outputs: seq<bool>, data: OutputData): (r: Route)
    requires |outputs| == |devs|
    ensures !r.NoRoute? ==> r.index < |devs| && devs[r.index].enabled && devs[r.index].id == data.deviceId &&
                            outputs[r.index] && FindDevice(devs, data.deviceId) == Some(r.index)
    ensures r.NoRoute? <==> FindDevice(devs, data.deviceId).None? || !outputs[FindDevice(devs, data.deviceId).value]
    ensures r.SetValueOn? <==> !r.NoRoute? && data.command == "set_value"
    ensures r.CommandOn? ==> r.command == data.command
    ensures !r.NoRoute? ==> r.value == data.value
  {
    match FindDevice(devs, data.deviceId)
    case None => NoRoute
    case Some(i) =>
      if !outputs[i] then NoRoute
      else if data.command == "set_value" then SetValueOn(i, data.value)
      else CommandOn(i, data.command, data.value)
  }

  /**
   * Routing consults the output pointer of the slot, not the row's type:
   * a slot that held an output device in an earlier configuration and now
   * holds a button still receives output commands.
   */
  lemma StaleOutputSlotIsRouted(v: Values.Value)
    ensures RouteFor([DeviceConfig("b", Button, 4, true)], [true], OutputData("p", "b", "blink", v)) == CommandOn(0, "blink", v)
  {
  }

  /** The device table with its driver pointers: `count` rows taken. */
  datatype Table = Table(count: nat, rows: seq<DeviceConfig>, inputs: seq<bool>, outputs: seq<bool>)

  predicate WellFormed(t: Table)
  {
    |t.rows| == MaxDevices && |t.inputs| == MaxDevices && |t.outputs| == MaxDevices && t.count <= MaxDevices
  }

  /**
   * One pass of the configuration loop: the spec is written into slot
   * `count`; a known type also gets a driver of its kind, is enabled and
   * takes the slot.
   */
  function LoadSpec(t: Table, spec: DeviceSpec): (r: Table)
    requires WellFormed(t) && t.count < MaxDevices
    ensures WellFormed(r)
  {
    var ty := ParseDeviceType(spec.typeName);
    Table(t.count + |Entry(spec)|,
          t.rows[t.count := DeviceConfig(spec.id, ty, spec.pin, ty != Unknown)],
          if ty != Unknown && IsInputType(ty) then t.inputs[t.count := true] else t.inputs,
          if ty != Unknown && !IsInputType(ty) then t.outputs[t.count := true] else t.outputs)
  }

  /** The configuration loop from table `t` on: specs are loaded until they run out or the table is full. */
  function LoadFrom(t: Table, specs: seq<DeviceSpec>): (r: Table)
    requires WellFormed(t)
    ensures WellFormed(r)
    decreases |specs|
  {
    if specs == [] || t.count >= MaxDevices then t else LoadFrom(LoadSpec(t, specs[0]), specs[1..])
  }

  /**
   * Slot i's driver pointers against those the table was loaded over
   * (`ins0`, `outs0`): a taken slot has a driver of its row's kind (input
   * for types up to the slider, output otherwise) besides any driver left
   * there earlier, since pointers are never cleared; a free slot's
   * pointers are as before.
   */
  predicate DriverOk(i: nat, t: Table, ins0: seq<bool>, outs0: seq<bool>)
    requires WellFormed(t) && |ins0| == MaxDevices && |outs0| == MaxDevices && i < MaxDevices
  {
    if i < t.count then
      t.inputs[i] == (ins0[i] || IsInputType(t.rows[i].dtype)) && t.outputs[i] == (outs0[i] || !IsInputType(t.rows[i].dtype))
    else
      t.inputs[i] == ins0[i] && t.outputs[i] == outs0[i]
  }

  predicate DriversOk(t: Table, ins0: seq<bool>, outs0: seq<bool>)
    requires WellFormed(t) && |ins0| == MaxDevices && |outs0| == MaxDevices
  {
    forall i :: 0 <= i < MaxDevices ==> DriverOk(i, t, ins0, outs0)
  }

  /** The loop invariant: the taken rows are those of the specs loaded so far. */
  predicate PartlyLoaded(prefix: seq<DeviceSpec>, t: Table, ins0: seq<bool>, outs0: seq<bool>)
  {
    WellFormed(t) && |ins0| == MaxDevices && |outs0| == MaxDevices &&
    t.count == |Installed(prefix)| && t.rows[..t.count] == Installed(prefix) && DriversOk(t, ins0, outs0)
  }

  /**
   * What loading `specs` over driver pointers `ins0`/`outs0` yields: the
   * rows of the known specs in order, as many as fit, each with a driver
   * of its kind.
   */
  predicate Loaded(specs: seq<DeviceSpec>, r: Table, ins0: seq<bool>, outs0: seq<bool>)
  {
    WellFormed(r) && |ins0| == MaxDevices && |outs0| == MaxDevices &&
    r.count == Min(|Installed(specs)|, MaxDevices) &&
    r.rows[..r.count] == Installed(specs)[..r.count] && DriversOk(r, ins0, outs0)
  }

  /** One spec loaded into the next free slot extends the rows by the spec's entry. */
  lemma LoadStep(prefix: seq<DeviceSpec>, spec: DeviceSpec, t: Table, ins0: seq<bool>, outs0: seq<bool>)
    requires PartlyLoaded(prefix, t, ins0, outs0) && t.count < MaxDevices
    ensures PartlyLoaded(prefix + [spec], LoadSpec(t, spec), ins0, outs0)
  {
    var r := LoadSpec(t, spec);
    assert (prefix + [spec])[..|prefix|] == prefix;
    if ParseDeviceType(spec.typeName) != Unknown {
      assert r.rows[..t.count + 1] == t.rows[..t.count] + [r.rows[t.count]];
    } else {
      assert r.rows[..t.count] == t.rows[..t.count];
    }
    forall i | 0 <= i < MaxDevices
      ensures DriverOk(i, r, ins0, outs0)
    {
      assert DriverOk(i, t, ins0, outs0);
    }
  }

  /** The loop invariant carried to the end: a partly loaded table finishes as a loaded one. */
  lemma {:induction false} LoadFromCorrect(prefix: seq<DeviceSpec>, rest: seq<DeviceSpec>, t: Table, ins0: seq<bool>, outs0: seq<bool>)
    requires PartlyLoaded(prefix, t, ins0, outs0)
    ensures Loaded(prefix + rest, LoadFrom(t, rest), ins0, outs0)
    decreases |rest|
  {
    if rest == [] {
      assert prefix + rest == prefix;
      LoadedAtEnd(prefix, t, ins0, outs0);
    } else if t.count >= MaxDevices {
      LoadedWhenFull(prefix, rest, t, ins0, outs0);
    } else {
      LoadStep(prefix, rest[0], t, ins0, outs0);
      LoadFromCorrect(prefix + [rest[0]], rest[1..], LoadSpec(t, rest[0]), ins0, outs0);
      LoadedAfterStep(prefix, rest, LoadFrom(LoadSpec(t, rest[0]), rest[1..]), ins0, outs0);
    }
  }

  /** The loaded specs regrouped: the spec loaded first, then the rest. */
  lemma LoadedAfterStep(prefix: seq<DeviceSpec>, rest: seq<DeviceSpec>, r: Table, ins0: seq<bool>, outs0: seq<bool>)
    requires rest != [] && Loaded((prefix + [rest[0]]) + rest[1..], r, ins0, outs0)
    ensures Loaded(prefix + rest, r, ins0, outs0)
  {
    assert (prefix + [rest[0]]) + rest[1..] == prefix + rest;
  }

  lemma LoadedAtEnd(prefix: seq<DeviceSpec>, t: Table, ins0: seq<bool>, outs0: seq<bool>)
    requires PartlyLoaded(prefix, t, ins0, outs0)
    ensures Loaded(prefix, t, ins0, outs0)
  {
    assert Installed(prefix)[..t.count] == Installed(prefix);
  }

  lemma LoadedWhenFull(prefix: seq<DeviceSpec>, rest: seq<DeviceSpec>, t: Table, ins0: seq<bool>, outs0: seq<bool>)
    requires PartlyLoaded(prefix, t, ins0, outs0) && t.count >= MaxDevices
    ensures Loaded(prefix + rest, t, ins0, outs0)
  {
    assert (prefix + rest)[..|prefix|] == prefix;
    InstalledPrefix(prefix + rest, |prefix|);
    assert Installed(prefix + rest)[..t.count] == Installed(prefix);
  }

  /** Loading over any table meets Loaded: the count restarts at 0. */
  lemma LoadTableCorrect(specs: seq<DeviceSpec>, d0: seq<DeviceConfig>, ins0: seq<bool>, outs0: seq<bool>)
    requires |d0| == MaxDevices && |ins0| == MaxDevices && |outs0| == MaxDevices
    ensures Loaded(specs, LoadFrom(Table(0, d0, ins0, outs0), specs), ins0, outs0)
  {
    LoadFromCorrect([], specs, Table(0, d0, ins0, outs0), ins0, outs0);
    assert [] + specs == specs;
  }

  // ---------------------------------------------------------------------
  // The panel

  class Panel {
    const panelId: string
    var messageBuffer: string
    var name: string
    var status: PanelStatus
    var configReceived: bool
    /** devices[], the configured rows. */
    const devices: array<DeviceConfig>
    /** inputDevices[i] != nullptr */
    const hasInput: array<bool>
    /** outputDevices[i] != nullptr */
    const hasOutput: array<bool>
    var deviceCount: nat
    /** panelInfo.errors[] and panelInfo.errorCount */
    const errors: array<string>
    var errorCount: nat

    ghost predicate Valid()
      reads this
    {
      devices.Length == MaxDevices && hasInput.Length == MaxDevices && hasOutput.Length == MaxDevices &&
      errors.Length == MaxErrors && hasInput != hasOutput &&
      deviceCount <= MaxDevices && errorCount <= MaxErrors &&
      Framing.NoNewline(messageBuffer)
    }

    /** The errors currently logged, oldest first. */
    function ErrorLog(): seq<string>
      reads this, errors
      requires errorCount <= errors.Length
    {
      errors[..errorCount]
    }

    /** The constructor: offline, no devices, no errors, empty buffer. */
    constructor (panelId: string)
      ensures Valid() && this.panelId == panelId
      ensures status == Offline && !configReceived && deviceCount == 0 && errorCount == 0 && messageBuffer == ""
      ensures forall i :: 0 <= i < MaxDevices ==> !devices[i].enabled && !hasInput[i] && !hasOutput[i]
      ensures fresh(devices) && fresh(hasInput) && fresh(hasOutput) && fresh(errors)
    {
      this.panelId := panelId;
      messageBuffer := "";
      name := "";
      status := Offline;
      configReceived := false;
      devices := new DeviceConfig[MaxDevices](_ => DeviceConfig("", Button, 0, false));
      hasInput := new bool[MaxDevices](_ => false);
      hasOutput := new bool[MaxDevices](_ => false);
      deviceCount := 0;
      errors := new string[MaxErrors](_ => "");
      errorCount := 0;
    }

    /**
     * The byte loop of loop(): every byte other than '\n' is appended to
     * the buffer; a '\n' completes the buffer as a message and empties it.
     * The completed messages are returned in order; each is then handed to
     * ProcessMessage, which does not touch the buffer.
     */
    method ReadAvailable(input: string) returns (lines: seq<string>)
      requires Valid()
      modifies this`messageBuffer
      ensures Valid()
      ensures lines == Framing.Feed(old(messageBuffer), input).lines
      ensures messageBuffer == Framing.Feed(old(messageBuffer), input).rest
    {
      lines := [];
      var k := 0;
      while k < |input|
        invariant 0 <= k <= |input| && Valid()
        invariant Framing.Feed(old(messageBuffer), input) ==
          Framing.Frames(lines + Framing.Feed(messageBuffer, input[k..]).lines, Framing.Feed(messageBuffer, input[k..]).rest)
      {
        var c := input[k];
        assert input[k..][0] == c && input[k..][1..] == input[k + 1..];
        if c == '\n' {
          assert lines + ([messageBuffer] + Framing.Feed("", input[k + 1..]).lines) ==
                 (lines + [messageBuffer]) + Framing.Feed("", input[k + 1..]).lines;
          lines := lines + [messageBuffer];
          messageBuffer := "";
        } else {
          assert forall x :: x in messageBuffer + [c] ==> x in messageBuffer || x == c;
          messageBuffer := messageBuffer + [c];
        }
        k := k + 1;
      }
      assert lines + [] == lines;
    }

    /** addError: appended while fewer than eight are logged, dropped otherwise. */
    method AddError(e: string)
      requires Valid()
      modifies this`errorCount, errors
      ensures Valid()
      ensures ErrorLog() == if old(errorCount) < MaxErrors then old(ErrorLog()) + [e] else old(ErrorLog())
      ensures errorCount == if old(errorCount) < MaxErrors then old(errorCount) + 1 else old(errorCount)
    {
      ghost var before := ErrorLog();
      if errorCount < MaxErrors {
        errors[errorCount] := e;
        errorCount := errorCount + 1;
        assert errors[..errorCount] == before + [e];
      }
    }

    /** clearErrors: the log becomes empty. */
    method ClearErrors()
      requires Valid()
      modifies this`errorCount
      ensures Valid() && errorCount == 0 && ErrorLog() == []
    {
      errorCount := 0;
    }

    /** The device table as it stands. */
    function Current(): Table
      reads this, devices, hasInput, hasOutput
    {
      Table(deviceCount, devices[..], hasInput[..], hasOutput[..])
    }

    /**
     * handleConfiguration. A configuration for another panel changes
     * nothing. Otherwise the table is rebuilt by the configuration loop
     * (LoadFrom, whose outcome LoadTableCorrect describes), every known type
     * getting a driver that starts successfully; the panel is ONLINE iff no
     * error is logged (PARTIAL otherwise), and a status report is sent.
     */
    method HandleConfiguration(data: ConfigData) returns (reported: bool)
      requires Valid()
      modifies this`name, this`deviceCount, this`configReceived, this`status, devices, hasInput, hasOutput
      ensures Valid()
      ensures data.panelId != panelId ==>
        !reported && name == old(name) && configReceived == old(configReceived) &&
        status == old(status) && Current() == old(Current())
      ensures data.panelId == panelId ==>
        reported && configReceived &&
        name == (if data.name.Some? then data.name.value else "Unknown Panel") &&
        (status == if errorCount == 0 then Online else Partial) &&
        Current() == LoadFrom(Table(0, old(devices[..]), old(hasInput[..]), old(hasOutput[..])), data.devices)
    {
      if data.panelId != panelId {
        return false;
      }
      name := if data.name.Some? then data.name.value else "Unknown Panel";
      LoadTable(data.devices);
      configReceived := true;
      status := if errorCount == 0 then Online else Partial;
      reported := true;
    }

    /** The loop of handleConfiguration. */
    method LoadTable(specs: seq<DeviceSpec>)
      requires Valid()
      modifies this`deviceCount, devices, hasInput, hasOutput
      ensures Valid()
      ensures Current() == LoadFrom(Table(0, old(devices[..]), old(hasInput[..]), old(hasOutput[..])), specs)
    {
      deviceCount := 0;
      var k := 0;
      while k < |specs| && deviceCount < MaxDevices
        invariant Valid() && 0 <= k <= |specs|
        invariant LoadFrom(Table(0, old(devices[..]), old(hasInput[..]), old(hasOutput[..])), specs) == LoadFrom(Current(), specs[k..])
      {
        assert specs[k..][0] == specs[k] && specs[k..][1..] == specs[k + 1..];
        LoadDevice(specs[k]);
        k := k + 1;
      }
    }

    /** One pass of the configuration loop, as LoadSpec defines it. */
    method LoadDevice(spec: DeviceSpec)
      requires Valid() && deviceCount < MaxDevices
      modifies this`deviceCount, devices, hasInput, hasOutput
      ensures Valid()
      ensures Current() == LoadSpec(old(Current()), spec)
    {
      var t := ParseDeviceType(spec.typeName);
      devices[deviceCount] := DeviceConfig(spec.id, t, spec.pin, false);
      if t != Unknown {
        if IsInputType(t) {
          hasInput[deviceCount] := true;
        } else {
          hasOutput[deviceCount] := true;
        }
        devices[deviceCount] := DeviceConfig(spec.id, t, spec.pin, true);
        deviceCount := deviceCount + 1;
      }
    }

    /** handleOutputCommand: the routing decision for a command addressed to this panel. */
    method HandleOutputCommand(data: OutputData) returns (route: Route)
      requires Valid()
      ensures route == if data.panelId == panelId then RouteFor(devices[..deviceCount], hasOutput[..deviceCount], data) else NoRoute
    {
      route := NoRoute;
      if data.panelId != panelId {
        return;
      }
      var i := 0;
      while i < deviceCount
        invariant 0 <= i <= deviceCount
        invariant forall j :: 0 <= j < i ==> !(devices[j].enabled && devices[j].id == data.deviceId)
      {
        if devices[i].enabled && devices[i].id == data.deviceId {
          assert FindDevice(devices[..deviceCount], data.deviceId) == Some(i);
          if hasOutput[i] {
            route := if data.command == "set_value" then SetValueOn(i, data.value) else CommandOn(i, data.command, data.value);
          }
          return;
        }
        i := i + 1;
      }
    }

    /**
     * processMessage: an unparseable line is ignored; "panel_config" and
     * "panel_output" go to their handlers; anything else only logs.
     */
    method ProcessMessage(line: string, decode: string -> Option<PanelMessage>) returns (effect: Effect)
      requires Valid()
      modifies this`name, this`deviceCount, this`configReceived, this`status, devices, hasInput, hasOutput
      ensures Valid()
      ensures decode(line).None? || decode(line).value.HeartbeatAck? || decode(line).value.OtherMessage? ==>
        effect == Ignored && unchanged(this) && devices[..] == old(devices[..]) &&
        hasInput[..] == old(hasInput[..]) && hasOutput[..] == old(hasOutput[..])
      ensures decode(line).Some? && decode(line).value.OutputMessage? ==>
        unchanged(this) && devices[..] == old(devices[..]) && hasInput[..] == old(hasInput[..]) && hasOutput[..] == old(hasOutput[..]) &&
        effect == Routed(if decode(line).value.output.panelId == panelId
                         then RouteFor(devices[..deviceCount], hasOutput[..deviceCount], decode(line).value.output) else NoRoute)
      ensures decode(line).Some? && decode(line).value.ConfigMessage? && decode(line).value.config.panelId != panelId ==>
        effect == Ignored && unchanged(this) && Current() == old(Current())
      ensures decode(line).Some? && decode(line).value.ConfigMessage? && decode(line).value.config.panelId == panelId ==>
        var config := decode(line).value.config;
        effect == StatusReported && configReceived &&
        name == (if config.name.Some? then config.name.value else "Unknown Panel") &&
        (status == if errorCount == 0 then Online else Partial) &&
        Current() == LoadFrom(Table(0, old(devices[..]), old(hasInput[..]), old(hasOutput[..])), config.devices)
    {
      effect := Ignored;
      match decode(line)
      case None =>
      case Some(msg) =>
        match msg
        case ConfigMessage(config) =>
          var reported := HandleConfiguration(config);
          if reported {
            effect := StatusReported;
          }
        case OutputMessage(output) =>
          var route := HandleOutputCommand(output);
          effect := Routed(route);
        case HeartbeatAck =>
        case OtherMessage =>
    }
  }

  // ---------------------------------------------------------------------
  // Button debouncing and change flags

  /** Unsigned 32-bit subtraction, as millis() arithmetic wraps. */
  function U32Sub(a: nat, b: nat): (d: nat)
    requires a < U32Modulus && b < U32Modulus
    ensures d < U32Modulus
    ensures a >= b ==> d == a - b
    ensures a < b ==> d == a - b + U32Modulus
  {
    (a - b) % U32Modulus
  }

  /** The timer keeps working across the 49-day rollover of millis(). */
  lemma DebounceAcrossRollover()
    ensures U32Sub(10, U32Modulus - 45) == 55
  {
  }

  class ButtonDevice {
    var lastState: bool
    var currentState: bool
    var lastDebounce: nat
    const debounceMs: nat
    var hasChangedFlag: bool

    ghost predicate Valid()
      reads this
    {
      lastDebounce < U32Modulus && debounceMs < 0x1_0000
    }

    /**
     * begin(): `configured` is config "debounce_ms" or 50, narrowed into the
     * 16-bit field; `reading` is the pin's level.
     */
    constructor (configured: nat, reading: bool)
      ensures Valid() && debounceMs == configured % 0x1_0000
      ensures lastState == reading && currentState == reading && lastDebounce == 0 && !hasChangedFlag
    {
      debounceMs := configured % 0x1_0000;
      lastState := reading;
      currentState := reading;
      lastDebounce := 0;
      hasChangedFlag := false;
    }

    /**
     * update(): the state follows the reading only once the reading has
     * been the same as at the previous sample and that sample is more than
     * debounceMs old; a change raises the flag.
     */
    method Update(reading: bool, now: nat)
      requires Valid() && now < U32Modulus
      modifies this`lastState, this`currentState, this`lastDebounce, this`hasChangedFlag
      ensures Valid() && lastState == reading
      ensures lastDebounce == if reading != old(lastState) then now else old(lastDebounce)
      ensures currentState != old(currentState) <==>
        reading == old(lastState) && U32Sub(now, old(lastDebounce)) > debounceMs && reading != old(currentState)
      ensures currentState != old(currentState) ==> currentState == reading
      ensures hasChangedFlag == (old(hasChangedFlag) || currentState != old(currentState))
    {
      if reading != lastState {
        lastDebounce := now;
      }
      if U32Sub(now, lastDebounce) > debounceMs {
        if reading != currentState {
          currentState := reading;
          hasChangedFlag := true;
        }
      }
      lastState := reading;
    }

    /** hasChanged(): reports the pending flag and clears it. */
    method HasChanged() returns (changed: bool)
      modifies this`hasChangedFlag
      ensures changed == old(hasChangedFlag) && !hasChangedFlag
    {
      changed := hasChangedFlag;
      hasChangedFlag := false;
    }
  }

  // ---------------------------------------------------------------------
  // Output drivers

  newtype Byte = x: int | 0 <= x < 256

  /**
   * A float stored into a uint8_t: truncated toward zero and reduced to 8
   * bits. Inside 0..255 this is the floor; outside it C leaves the
   * conversion undefined.
   */
  function ToByte(x: real): (b: Byte)
    ensures 0.0 <= x < 256.0 ==> b as int == x.Floor
  {
    (Values.TruncToInt(x) % 256) as Byte
  }

  /** How many LEDs a level in [0, 1] lights: (int)(level * ledCount). */
  function ActiveLeds(level: real, count: nat): (n: int)
    requires 0.0 <= level <= 1.0
    ensures 0 <= n <= count
  {
    assert 0.0 <= level * count as real <= count as real by {
      assert (1.0 - level) * count as real >= 0.0;
    }
    Values.TruncToInt(level * count as real)
  }

  class LedBarDevice {
    const ledCount: nat
    const ledStates: array<bool>
    var currentLevel: real

    ghost predicate Valid()
      reads this
    {
      ledStates.Length == ledCount && 0.0 <= currentLevel <= 1.0
    }

    /**
     * begin(): `leds` is config "leds" or 10, stored into a uint8_t, so
     * the count keeps its low eight bits; every LED off.
     */
    constructor (leds: int)
      ensures Valid() && ledCount == leds % 256 && ledCount < 256 && currentLevel == 0.0
      ensures 0 <= leds < 256 ==> ledCount == leds
      ensures forall i :: 0 <= i < ledCount ==> !ledStates[i]
    {
      ledCount := leds % 256;
      ledStates := new bool[leds % 256](_ => false);
      currentLevel := 0.0;
    }

    /** setValue: the level is clamped to [0, 1] and exactly the LEDs below it are lit. */
    method SetValue(value: real) returns (ok: bool)
      requires Valid()
      modifies this`currentLevel, ledStates
      ensures Valid() && ok
      ensures currentLevel == MathUtils.Clamp(value, 0.0, 1.0)
      ensures forall i :: 0 <= i < ledCount ==> ledStates[i] == (i < ActiveLeds(currentLevel, ledCount))
    {
      currentLevel := MathUtils.Clamp(value, 0.0, 1.0);
      var active := ActiveLeds(currentLevel, ledCount);
      var i := 0;
      while i < ledCount
        invariant 0 <= i <= ledCount && currentLevel == MathUtils.Clamp(value, 0.0, 1.0)
        invariant forall j :: 0 <= j < i ==> ledStates[j] == (j < active)
      {
        ledStates[i] := i < active;
        i := i + 1;
      }
      ok := true;
    }

    /** set_pattern: writes the first min(ledCount, |pattern|) LEDs and leaves the rest. */
    method SetPattern(pattern: seq<bool>)
      requires Valid()
      modifies ledStates
      ensures Valid()
      ensures forall i :: 0 <= i < ledCount ==> ledStates[i] == if i < |pattern| then pattern[i] else old(ledStates[i])
    {
      var i := 0;
      while i < ledCount && i < |pattern|
        invariant 0 <= i <= ledCount && i <= |pattern|
        invariant forall j :: 0 <= j < ledCount ==> ledStates[j] == if j < i then pattern[j] else old(ledStates[j])
      {
        ledStates[i] := pattern[i];
        i := i + 1;
      }
    }

    /**
     * setCommand: "set_level" and "set_pattern" are handled (the value read
     * as a float, or as an array of booleans); other commands are refused.
     */
    method SetCommand(command: string, level: real, pattern: seq<bool>) returns (handled: bool)
      requires Valid()
      modifies this`currentLevel, ledStates
      ensures Valid()
      ensures handled <==> command == "set_level" || command == "set_pattern"
      ensures command == "set_level" ==>
        currentLevel == MathUtils.Clamp(level, 0.0, 1.0) &&
        forall i :: 0 <= i < ledCount ==> ledStates[i] == (i < ActiveLeds(currentLevel, ledCount))
      ensures command == "set_pattern" ==>
        currentLevel == old(currentLevel) &&
        forall i :: 0 <= i < ledCount ==> ledStates[i] == if i < |pattern| then pattern[i] else old(ledStates[i])
      ensures !handled ==> currentLevel == old(currentLevel) && ledStates[..] == old(ledStates[..])
    {
      if command == "set_level" {
        handled := SetValue(level);
      } else if command == "set_pattern" {
        SetPattern(pattern);
        handled := true;
      } else {
        handled := false;
      }
    }
  }

  class SevenSegmentDevice {
    const digits: nat
    var brightness: Byte
    const decimalPoints: array<bool>
    var displayText: string

    ghost predicate Valid()
      reads this
    {
      decimalPoints.Length == 8
    }

    /**
     * begin(): `digits` is config "digits" or 4, `brightness` config
     * "brightness" or 8, both stored into a uint8_t.
     */
    constructor (digits: int, brightness: int)
      ensures Valid() && this.digits == digits % 256 && this.brightness as int == brightness % 256 && displayText == ""
      ensures forall i :: 0 <= i < 8 ==> !decimalPoints[i]
    {
      this.digits := digits % 256;
      this.brightness := (brightness % 256) as Byte;
      decimalPoints := new bool[8](_ => false);
      displayText := "";
    }

    /** setValue: shows the value truncated toward zero, in decimal. */
    method SetValue(value: real) returns (ok: bool)
      modifies this`displayText
      ensures ok && displayText == Text.IntToString(Values.TruncToInt(value))
    {
      displayText := Text.IntToString(Values.TruncToInt(value));
      ok := true;
    }

    /** set_decimal: only positions 0..7 are written; any other position changes nothing. */
    method SetDecimal(position: int, state: bool)
      requires Valid()
      modifies decimalPoints
      ensures forall i :: 0 <= i < 8 ==> decimalPoints[i] == if i == position then state else old(decimalPoints[i])
    {
      if 0 <= position < 8 {
        decimalPoints[position] := state;
      }
    }

    /**
     * setCommand: "set_text", "set_brightness" and "set_decimal" are
     * handled, with the value read as text, as a byte, or as a position and
     * state; other commands are refused and change nothing.
     */
    method SetCommand(command: string, text: string, level: Byte, position: int, state: bool) returns (handled: bool)
      requires Valid()
      modifies this`displayText, this`brightness, decimalPoints
      ensures handled <==> command in ["set_text", "set_brightness", "set_decimal"]
      ensures command == "set_text" ==>
        displayText == text && brightness == old(brightness) && decimalPoints[..] == old(decimalPoints[..])
      ensures command == "set_brightness" ==>
        brightness == level && displayText == old(displayText) && decimalPoints[..] == old(decimalPoints[..])
      ensures command == "set_decimal" ==>
        displayText == old(displayText) && brightness == old(brightness) &&
        forall i :: 0 <= i < 8 ==> decimalPoints[i] == if i == position then state else old(decimalPoints[i])
      ensures !handled ==> displayText == old(displayText) && brightness == old(brightness) && decimalPoints[..] == old(decimalPoints[..])
    {
      if command == "set_text" {
        displayText := text;
        handled := true;
      } else if command == "set_brightness" {
        brightness := level;
        handled := true;
      } else if command == "set_decimal" {
        SetDecimal(position, state);
        handled := true;
      } else {
        handled := false;
      }
    }
  }

  datatype Color = Color(r: Byte, g: Byte, b: Byte)

  const Black := Color(0, 0, 0)

  /** CRGB(color[0], color[1], color[2]) of a colour array with at least three entries. */
  function ColorOf(c: seq<Byte>): Color
    requires |c| >= 3
  {
    Color(c[0], c[1], c[2])
  }

  class RgbStripDevice {
    const pixels: nat
    const leds: array<Color>

    ghost predicate Valid()
      reads this
    {
      leds.Length == pixels
    }

    /** begin(): `pixels` is config "pixels" or 12, stored into a uint16_t; the strip starts cleared. */
    constructor (pixels: int)
      ensures Valid() && this.pixels == pixels % 65536
      ensures forall i :: 0 <= i < this.pixels ==> leds[i] == Black
    {
      this.pixels := pixels % 65536;
      leds := new Color[pixels % 65536](_ => Black);
    }

    /** Every pixel set to one colour. */
    method Fill(c: Color)
      requires Valid()
      modifies leds
      ensures forall i :: 0 <= i < pixels ==> leds[i] == c
    {
      var i := 0;
      while i < pixels
        invariant 0 <= i <= pixels
        invariant forall j :: 0 <= j < i ==> leds[j] == c
      {
        leds[i] := c;
        i := i + 1;
      }
    }

    /** setValue: a grey of brightness (uint8_t)(value * 255) on every pixel. */
    method SetValue(value: real) returns (ok: bool)
      requires Valid()
      modifies leds
      ensures ok
      ensures forall i :: 0 <= i < pixels ==> leds[i] == Color(ToByte(value * 255.0), ToByte(value * 255.0), ToByte(value * 255.0))
    {
      var b := ToByte(value * 255.0);
      Fill(Color(b, b, b));
      ok := true;
    }

    /** set_all: a colour of fewer than three entries is ignored. */
    method SetAll(color: seq<Byte>)
      requires Valid()
      modifies leds
      ensures |color| >= 3 ==> forall i :: 0 <= i < pixels ==> leds[i] == ColorOf(color)
      ensures |color| < 3 ==> leds[..] == old(leds[..])
    {
      if |color| >= 3 {
        Fill(ColorOf(color));
      }
    }

    /**
     * set_colors: pixel i takes colours[i] for i below both the pixel count
     * and the list length, when that entry has three components.
     */
    method SetColors(colors: seq<seq<Byte>>)
      requires Valid()
      modifies leds
      ensures forall i :: 0 <= i < pixels ==>
        leds[i] == if i < |colors| && |colors[i]| >= 3 then ColorOf(colors[i]) else old(leds[i])
    {
      var i := 0;
      while i < pixels && i < |colors|
        invariant 0 <= i <= pixels && i <= |colors|
        invariant forall j :: 0 <= j < pixels ==>
          leds[j] == if j < i && |colors[j]| >= 3 then ColorOf(colors[j]) else old(leds[j])
      {
        if |colors[i]| >= 3 {
          leds[i] := ColorOf(colors[i]);
        }
        i := i + 1;
      }
    }

    /** setCommand: "set_all" and "set_colors" are handled; other commands are refused and change nothing. */
    method SetCommand(command: string, color: seq<Byte>, colors: seq<seq<Byte>>) returns (handled: bool)
      requires Valid()
      modifies leds
      ensures handled <==> command == "set_all" || command == "set_colors"
      ensures command == "set_all" && |color| >= 3 ==> forall i :: 0 <= i < pixels ==> leds[i] == ColorOf(color)
      ensures command == "set_all" && |color| < 3 ==> leds[..] == old(leds[..])
      ensures command == "set_colors" ==> forall i :: 0 <= i < pixels ==>
        leds[i] == if i < |colors| && |colors[i]| >= 3 then ColorOf(colors[i]) else old(leds[i])
      ensures !handled ==> leds[..] == old(leds[..])
    {
      if command == "set_all" {
        SetAll(color);
        handled := true;
      } else if command == "set_colors" {
        SetColors(colors);
        handled := true;
      } else {
        handled := false;
      }
    }
  }
}
