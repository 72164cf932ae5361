/**
 * MIDI devices driven by the platform's MIDI ports: detection of DJ
 * controllers among the port names, and the connection state of one
 * device. Port enumeration is given as the list of port names in
 * enumeration order, `None` where a name cannot be read; a port is
 * identified by its position in that list.
 */
module Midir {
  import opened Common
  import opened Djio
  import opened Midi

  /** A detected input port: its device, its name and its position. */
  datatype InputEntry = InputEntry(descriptor: MidiDeviceDescriptor, name: string, port: nat)

  /** A detected output port: its name and its position. */
  datatype OutputEntry = OutputEntry(name: string, port: nat)

  /** The first descriptor, in the given order, whose prefix starts the port name. */
  function FindDescriptor(descriptors: seq<MidiDeviceDescriptor>, name: string): (r: Option<MidiDeviceDescriptor>)
    ensures r.None? <==> forall k | 0 <= k < |descriptors| :: !(descriptors[k].portNamePrefix <= name)
    ensures r.Some? ==> r.value in descriptors && r.value.portNamePrefix <= name
  {
    if descriptors == [] then None
    else if descriptors[0].portNamePrefix <= name then Some(descriptors[0])
    else
      var r := FindDescriptor(descriptors[1..], name);
      assert forall k | 1 <= k < |descriptors| :: descriptors[k] == descriptors[1..][k - 1];
      r
  }

  /** The first descriptor whose prefix starts the port name is the one found. */
  lemma {:induction false} FindDescriptorFirst(descriptors: seq<MidiDeviceDescriptor>, name: string, j: nat)
    requires j < |descriptors| && descriptors[j].portNamePrefix <= name
    requires forall i | 0 <= i < j :: !(descriptors[i].portNamePrefix <= name)
    ensures FindDescriptor(descriptors, name) == Some(descriptors[j])
  {
    if j > 0 {
      var rest := descriptors[1..];
      assert !(descriptors[0].portNamePrefix <= name);
      assert rest[j - 1] == descriptors[j];
      assert forall i | 0 <= i < j - 1 :: rest[i] == descriptors[i + 1];
      FindDescriptorFirst(rest, name, j - 1);
    }
  }

  /** The descriptor a port is attributed to, if its name can be read and has a known prefix. */
  function Attribution(descriptors: seq<MidiDeviceDescriptor>, name: Option<string>): Option<MidiDeviceDescriptor>
  {
    if name.None? then None else FindDescriptor(descriptors, name.value)
  }

  /**
   * The input ports among the first `n`, keyed by the prefix of the
   * descriptor each is attributed to. A later port of the same prefix
   * replaces an earlier one.
   */
  function InputPorts(descriptors: seq<MidiDeviceDescriptor>, names: seq<Option<string>>, n: nat): (ports: map<string, InputEntry>)
    requires n <= |names|
    ensures forall k | k in ports :: ports[k].descriptor.portNamePrefix == k && ports[k].port < n
  {
    if n == 0 then map[]
    else
      var ports := InputPorts(descriptors, names, n - 1);
      var a := Attribution(descriptors, names[n - 1]);
      if a.None? then ports else ports[a.value.portNamePrefix := InputEntry(a.value, names[n - 1].value, n - 1)]
  }

  /** A port attributed to the device with prefix `prefix`. */
  predicate AttributedTo(descriptors: seq<MidiDeviceDescriptor>, name: Option<string>, prefix: string)
  {
    var a := Attribution(descriptors, name);
    a.Some? && a.value.portNamePrefix == prefix
  }

  /** A prefix is a key iff some port is attributed to it. */
  lemma {:induction false} InputPortsKeys(descriptors: seq<MidiDeviceDescriptor>, names: seq<Option<string>>, n: nat, prefix: string)
    requires n <= |names|
    ensures prefix in InputPorts(descriptors, names, n) <==>
              exists i | 0 <= i < n :: AttributedTo(descriptors, names[i], prefix)
  {
    if n > 0 {
      InputPortsKeys(descriptors, names, n - 1, prefix);
      if AttributedTo(descriptors, names[n - 1], prefix) {
        assert prefix in InputPorts(descriptors, names, n);
      } else if prefix in InputPorts(descriptors, names, n) {
        assert prefix in InputPorts(descriptors, names, n - 1);
      }
    }
  }

  /**
   * The entry of a prefix is the last port attributed to it, with the
   * descriptor it is attributed to.
   */
  lemma {:induction false} InputPortsEntry(descriptors: seq<MidiDeviceDescriptor>, names: seq<Option<string>>, n: nat, prefix: string)
    requires n <= |names| && prefix in InputPorts(descriptors, names, n)
    ensures var e := InputPorts(descriptors, names, n)[prefix];
            e.port < n && names[e.port] == Some(e.name) &&
            FindDescriptor(descriptors, e.name) == Some(e.descriptor) &&
            e.descriptor.portNamePrefix == prefix &&
            forall i | e.port < i < n :: !AttributedTo(descriptors, names[i], prefix)
  {
    var ports := InputPorts(descriptors, names, n - 1);
    var a := Attribution(descriptors, names[n - 1]);
    if a.Some? && a.value.portNamePrefix == prefix {
      assert InputPorts(descriptors, names, n)[prefix] == InputEntry(a.value, names[n - 1].value, n - 1);
    } else {
      assert InputPorts(descriptors, names, n)[prefix] == ports[prefix];
      InputPortsEntry(descriptors, names, n - 1, prefix);
    }
  }

  /** The first prefix, in the order given, that starts the port name. */
  function FindPrefix(prefixes: seq<string>, name: string): (r: Option<string>)
    ensures r.Some? ==> r.value in prefixes && r.value <= name
    ensures r.None? <==> forall k | 0 <= k < |prefixes| :: !(prefixes[k] <= name)
  {
    if prefixes == [] then None
    else if prefixes[0] <= name then Some(prefixes[0])
    else
      var r := FindPrefix(prefixes[1..], name);
      assert forall k | 1 <= k < |prefixes| :: prefixes[k] == prefixes[1..][k - 1];
      r
  }

  /**
   * The output ports among the first `n`, keyed by the first detected
   * input prefix, in the input map's iteration order `keys`, that starts
   * the port name. A later port of the same prefix replaces an earlier one.
   */
  function OutputPorts(keys: seq<string>, names: seq<Option<string>>, n: nat): (ports: map<string, OutputEntry>)
    requires n <= |names|
    ensures forall k | k in ports :: k in keys && k <= ports[k].name
  {
    if n == 0 then map[]
    else
      var ports := OutputPorts(keys, names, n - 1);
      match names[n - 1]
      case None => ports
      case Some(name) =>
        match FindPrefix(keys, name)
        case None => ports
        case Some(prefix) => ports[prefix := OutputEntry(name, n - 1)]
  }

  /**
   * Every output port is keyed by a detected input prefix that starts its
   * name, and the entry is a readable port among the first `n`.
   */
  lemma {:induction false} OutputPortsSpec(keys: seq<string>, names: seq<Option<string>>, n: nat)
    requires n <= |names|
    ensures forall k | k in OutputPorts(keys, names, n) ::
              var e := OutputPorts(keys, names, n)[k];
              k in keys && k <= e.name && e.port < n && names[e.port] == Some(e.name)
  {
    if n > 0 {
      OutputPortsSpec(keys, names, n - 1);
    }
  }

  /** `keys` lists the keys of `m`, each once: an iteration order of the map. */
  predicate IterationOrder<V>(keys: seq<string>, m: map<string, V>)
  {
    (forall i, j | 0 <= i < j < |keys| :: keys[i] != keys[j]) && (set k | k in keys) == m.Keys
  }

  /** `n` successive indices drawn after `p`. */
  function Advance(p: PortIndex, n: nat): PortIndex
  {
    if n == 0 then p else Successor(Advance(p, n - 1))
  }

  datatype MidiPortError = Disconnected | Init | ConnectInput | ConnectOutput

  /** An input gateway, created by the gateway factory; opaque. */
  datatype Gateway = Gateway(id: nat)

  /** An open input connection, which owns the input gateway. */
  datatype InputConnection = InputConnection(gateway: Gateway)

  /** An open output connection to the named port. */
  datatype OutputConnection = OutputConnection(portName: string)

  /**
   * Whether each step of a reconnect would succeed on the platform:
   * creating the MIDI client and connecting the port, for input and
   * output.
   */
  datatype Platform = Platform(inputInit: bool, inputConnect: bool, outputInit: bool, outputConnect: bool)

  /**
   * The outcome of `reconnect`: an existing connection is reopened, and
   * otherwise a new one needs a gateway factory; the steps fail in order.
   */
  function ReconnectOutcome(connected: bool, hasFactory: bool, platform: Platform): (r: Result<Unit, MidiPortError>)
    ensures !connected && !hasFactory ==> r == Err(MidiPortError.Disconnected)
    ensures r.Ok? <==>
              (connected || hasFactory) && (connected || platform.inputInit) && platform.inputConnect &&
              (connected || platform.outputInit) && platform.outputConnect
  {
    if connected then
      if !platform.inputConnect then Err(ConnectInput)
      else if !platform.outputConnect then Err(ConnectOutput)
      else Ok(Unit)
    else if !hasFactory then Err(MidiPortError.Disconnected)
    else if !platform.inputInit then Err(Init)
    else if !platform.inputConnect then Err(ConnectInput)
    else if !platform.outputInit then Err(Init)
    else if !platform.outputConnect then Err(ConnectOutput)
    else Ok(Unit)
  }

  class MidirDevice {
    const descriptor: MidiDeviceDescriptor
    const inputPort: MidiPortDescriptor
    const outputPort: MidiPortDescriptor
    var inputConnection: Option<InputConnection>

    /** `MidirDevice::new`: a disconnected device. */
    constructor (descriptor: MidiDeviceDescriptor, inputPort: MidiPortDescriptor, outputPort: MidiPortDescriptor)
      ensures this.descriptor == descriptor && this.inputPort == inputPort && this.outputPort == outputPort
      ensures inputConnection.None?
    {
      this.descriptor, this.inputPort, this.outputPort := descriptor, inputPort, outputPort;
      inputConnection := None;
    }

    /** `is_available`: both ports are still enumerated under their exact names. */
    predicate IsAvailable(inputNames: seq<Option<string>>, outputNames: seq<Option<string>>)
    {
      Some(inputPort.name) in inputNames && Some(outputPort.name) in outputNames
    }

    /** `is_connected`: the device holds an input connection. */
    predicate IsConnected()
      reads this
      ensures IsConnected() <==> inputConnection.Some?
    {
      inputConnection.Some?
    }

    /** `disconnect`: closes the input connection, if any. */
    method Disconnect()
      modifies this
      ensures !IsConnected()
    {
      if inputConnection.None? {
        return;
      }
      inputConnection := None;
    }

    /**
     * `reconnect`: closes and reopens both connections, or opens new
     * ones with a gateway made by the factory. The device is connected
     * afterwards iff the outcome is a success, and an existing
     * connection keeps its gateway.
     */
    method Reconnect(newInputGateway: Option<Gateway>, outputConnection: Option<OutputConnection>, platform: Platform)
      returns (r: Result<OutputConnection, MidiPortError>)
      requires inputConnection.Some? <==> outputConnection.Some?
      modifies this
      ensures ReconnectOutcome(old(inputConnection).Some?, newInputGateway.Some?, platform).Ok? <==> r.Ok?
      ensures r.Err? ==> r.error == ReconnectOutcome(old(inputConnection).Some?, newInputGateway.Some?, platform).error
      ensures IsConnected() <==> r.Ok?
      ensures r.Ok? ==> r.value == OutputConnection(outputPort.name)
      ensures r.Ok? ==> inputConnection.value.gateway ==
                          (if old(inputConnection).Some? then old(inputConnection).value.gateway else newInputGateway.value)
    {
      var previous := inputConnection;
      inputConnection := None;
      // Reconnect input
      var gateway: Gateway;
      if previous.Some? {
        gateway := previous.value.gateway;
      } else {
        if newInputGateway.None? {
          return Err(MidiPortError.Disconnected);
        }
        if !platform.inputInit {
          return Err(Init);
        }
        gateway := newInputGateway.value;
      }
      if !platform.inputConnect {
        return Err(ConnectInput);
      }
      var input := InputConnection(gateway);
      // Reconnect output
      if outputConnection.None? && !platform.outputInit {
        return Err(Init);
      }
      if !platform.outputConnect {
        return Err(ConnectOutput);
      }
      inputConnection := Some(input);
      r := Ok(OutputConnection(outputPort.name));
    }
  }

  /** Without a connection and without a gateway factory, reconnecting fails and stays disconnected. */
  method ReconnectWithoutFactory(device: MidirDevice, platform: Platform) returns (r: Result<OutputConnection, MidiPortError>)
    requires !device.IsConnected()
    modifies device
    ensures r == Err(MidiPortError.Disconnected) && !device.IsConnected()
  {
    r := device.Reconnect(None, None, platform);
  }

  /**
   * A detected device: the descriptor its input port is attributed to,
   * its two ports with the indices drawn for them, and no connection.
   */
  predicate DetectedDevice(pair: (MidiDeviceDescriptor, MidirDevice), prefix: string, input: InputEntry,
                           output: OutputEntry, inputIndex: PortIndex, outputIndex: PortIndex)
    reads pair.1
  {
    var (d, device) := pair;
    && d == input.descriptor && device.descriptor == d
    && device.inputPort == MidiPortDescriptor(inputIndex, input.name)
    && device.outputPort == MidiPortDescriptor(outputIndex, output.name)
    && !device.IsConnected()
  }

  /** `retain`: the input ports whose prefix also has an output port. */
  function Retain(inputs: map<string, InputEntry>, outputs: map<string, OutputEntry>): (r: map<string, InputEntry>)
    ensures r.Keys == inputs.Keys * outputs.Keys
    ensures forall k | k in r :: r[k] == inputs[k]
  {
    map k | k in inputs && k in outputs :: inputs[k]
  }

  /** Every prefix of the device order has both an input and an output port. */
  lemma DeviceOrderDetected(descriptors: seq<MidiDeviceDescriptor>, inputNames: seq<Option<string>>,
                            outputNames: seq<Option<string>>, keyOrder: seq<string>, deviceOrder: seq<string>)
    requires IterationOrder(keyOrder, InputPorts(descriptors, inputNames, |inputNames|))
    requires IterationOrder(deviceOrder, OutputPorts(keyOrder, outputNames, |outputNames|))
    ensures forall j | 0 <= j < |deviceOrder| ::
              deviceOrder[j] in InputPorts(descriptors, inputNames, |inputNames|) &&
              deviceOrder[j] in OutputPorts(keyOrder, outputNames, |outputNames|)
  {
    OutputPortsSpec(keyOrder, outputNames, |outputNames|);
    forall j | 0 <= j < |deviceOrder|
      ensures deviceOrder[j] in InputPorts(descriptors, inputNames, |inputNames|)
      ensures deviceOrder[j] in OutputPorts(keyOrder, outputNames, |outputNames|)
    {
      assert deviceOrder[j] in (set k | k in deviceOrder);
      assert deviceOrder[j] in keyOrder;
      assert deviceOrder[j] in (set k | k in keyOrder);
    }
  }

  /** One device of the detection: draws its two indices, input first. */
  method NewDevice(prefix: string, input: InputEntry, output: OutputEntry, generator: PortIndexGenerator)
    returns (pair: (MidiDeviceDescriptor, MidirDevice))
    modifies generator
    ensures fresh(pair.1)
    ensures generator.counter == Successor(Successor(PortIndex(old(generator.counter)))).value
    ensures DetectedDevice(pair, prefix, input, output, Successor(PortIndex(old(generator.counter))),
                           Successor(Successor(PortIndex(old(generator.counter)))))
  {
    var inputIndex := generator.Next();
    var outputIndex := generator.Next();
    var device := new MidirDevice(input.descriptor, MidiPortDescriptor(inputIndex, input.name),
                                  MidiPortDescriptor(outputIndex, output.name));
    pair := (input.descriptor, device);
  }

  /**
   * `detect_dj_controllers`: one device per prefix that has both an input
   * and an output port, in the iteration order `deviceOrder` of the
   * remaining input map; each device draws two indices, input first.
   * `keyOrder` is the iteration order of the input map when output
   * ports look for a prefix.
   */
  method DetectDjControllers(descriptors: seq<MidiDeviceDescriptor>, inputNames: seq<Option<string>>,
                             outputNames: seq<Option<string>>, keyOrder: seq<string>, deviceOrder: seq<string>,
                             generator: PortIndexGenerator)
    returns (devices: seq<(MidiDeviceDescriptor, MidirDevice)>)
    requires IterationOrder(keyOrder, InputPorts(descriptors, inputNames, |inputNames|))
    requires IterationOrder(deviceOrder, OutputPorts(keyOrder, outputNames, |outputNames|))
    modifies generator
    ensures |devices| == |deviceOrder|
    ensures forall k | 0 <= k < |devices| ::
              fresh(devices[k].1) &&
              deviceOrder[k] in InputPorts(descriptors, inputNames, |inputNames|) &&
              deviceOrder[k] in OutputPorts(keyOrder, outputNames, |outputNames|) &&
              DetectedDevice(devices[k], deviceOrder[k],
                             InputPorts(descriptors, inputNames, |inputNames|)[deviceOrder[k]],
                             OutputPorts(keyOrder, outputNames, |outputNames|)[deviceOrder[k]],
                             Advance(PortIndex(old(generator.counter)), 2 * k + 1),
                             Advance(PortIndex(old(generator.counter)), 2 * k + 2))
  {
    var inputPorts := InputPorts(descriptors, inputNames, |inputNames|);
    var outputPorts := OutputPorts(keyOrder, outputNames, |outputNames|);
    DeviceOrderDetected(descriptors, inputNames, outputNames, keyOrder, deviceOrder);
    devices := BuildDevices(Retain(inputPorts, outputPorts), outputPorts, deviceOrder, generator);
  }

  /** The final step of the detection: one new device per prefix of `deviceOrder`, in order. */
  method BuildDevices(inputPorts: map<string, InputEntry>, outputPorts: map<string, OutputEntry>,
                      deviceOrder: seq<string>, generator: PortIndexGenerator)
    returns (devices: seq<(MidiDeviceDescriptor, MidirDevice)>)
    requires forall j | 0 <= j < |deviceOrder| :: deviceOrder[j] in inputPorts && deviceOrder[j] in outputPorts
    modifies generator
    ensures |devices| == |deviceOrder|
    ensures forall k | 0 <= k < |devices| ::
              fresh(devices[k].1) &&
              DetectedDevice(devices[k], deviceOrder[k], inputPorts[deviceOrder[k]], outputPorts[deviceOrder[k]],
                             Advance(PortIndex(old(generator.counter)), 2 * k + 1),
                             Advance(PortIndex(old(generator.counter)), 2 * k + 2))
  {
    ghost var start := PortIndex(generator.counter);
    devices := [];
    var k := 0;
    while k < |deviceOrder|
      invariant k <= |deviceOrder| && |devices| == k
      invariant generator.counter == Advance(start, 2 * k).value
      invariant forall j | 0 <= j < k ::
                  fresh(devices[j].1) &&
                  DetectedDevice(devices[j], deviceOrder[j], inputPorts[deviceOrder[j]], outputPorts[deviceOrder[j]],
                                 Advance(start, 2 * j + 1), Advance(start, 2 * j + 2))
    {
      var prefix := deviceOrder[k];
      var pair := NewDevice(prefix, inputPorts[prefix], outputPorts[prefix], generator);
      devices := devices + [pair];
      k := k + 1;
    }
  }

  /** Every detected device is attributed to the prefix it is listed under. */
  lemma DetectedPrefix(descriptors: seq<MidiDeviceDescriptor>, inputNames: seq<Option<string>>, prefix: string)
    requires prefix in InputPorts(descriptors, inputNames, |inputNames|)
    ensures InputPorts(descriptors, inputNames, |inputNames|)[prefix].descriptor.portNamePrefix == prefix
  {
    InputPortsEntry(descriptors, inputNames, |inputNames|, prefix);
  }

  /**
   * A detected device is available on the port enumeration it was
   * detected from: both of its port names are listed there.
   */
  lemma DetectedDeviceAvailable(descriptors: seq<MidiDeviceDescriptor>, inputNames: seq<Option<string>>,
                                outputNames: seq<Option<string>>, keyOrder: seq<string>,
                                pair: (MidiDeviceDescriptor, MidirDevice), prefix: string,
                                inputIndex: PortIndex, outputIndex: PortIndex)
    requires prefix in InputPorts(descriptors, inputNames, |inputNames|)
    requires prefix in OutputPorts(keyOrder, outputNames, |outputNames|)
    requires DetectedDevice(pair, prefix, InputPorts(descriptors, inputNames, |inputNames|)[prefix],
                            OutputPorts(keyOrder, outputNames, |outputNames|)[prefix], inputIndex, outputIndex)
    ensures pair.1.IsAvailable(inputNames, outputNames)
  {
    var input := InputPorts(descriptors, inputNames, |inputNames|)[prefix];
    var output := OutputPorts(keyOrder, outputNames, |outputNames|)[prefix];
    InputPortsEntry(descriptors, inputNames, |inputNames|, prefix);
    OutputPortsSpec(keyOrder, outputNames, |outputNames|);
    assert inputNames[input.port] == Some(pair.1.inputPort.name);
    assert outputNames[output.port] == Some(pair.1.outputPort.name);
  }
}
