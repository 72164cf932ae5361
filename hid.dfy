/**
 * HID support: usage pages, read timeouts, persistent device ids, the
 * de-duplicated device list and the connection state of a device. The
 * HID API itself is outside the model: what it reports is passed in.
 */
module Hid {
  import opened Common

  datatype HidDeviceError = NotConnected | NotSupported

  /** `HidError`: a device error, or a failure reported by the HID API. */
  datatype HidError = Device(deviceError: HidDeviceError) | Api

  /**
   * HID usage pages of the USB HID Usage Tables 1.3: the named pages,
   * `Reserved(n)` for unassigned codes and `VendorDefined(n)` for the
   * vendor range 0xff00 to 0xffff.
   */
  datatype HidUsagePage =
    | Undefined
    | GenericDesktop
    | SimulationControls
    | VRControls
    | SportControls
    | GameControls
    | GenericDeviceControls
    | Keyboard
    | LED
    | Button
    | Ordinal
    | Telephony
    | Consumer
    | Digitizer
    | Haptics
    | PhysicalInput
    | Unicode
    | EyeAndHeadTracker
    | AuxiliaryDisplay
    | Sensors
    | MedicalInstrument
    | BrailleDisplay
    | Light
    | Monitor
    | MonitorEnumerated
    | VESAVirtualControls
    | Power
    | BatterySystem
    | BarcodeScanner
    | Scale
    | MagneticStripeReader
    | CameraControl
    | Arcade
    | GamingDevice
    | FIDO
    | Reserved(reserved: U16)
    | VendorDefined(vendorDefined: U16)

  /** The codes the source lists as reserved, range by range. */
  predicate InReservedRange(n: U16)
  {
    || n == 0x11 || n == 0x13 || 0x15 <= n <= 0x1f || 0x21 <= n <= 0x3f
    || 0x42 <= n <= 0x58 || 0x5a <= n <= 0x7f || n == 0x83 || 0x86 <= n <= 0x8b
    || n == 0x8f || 0x93 <= n <= 0xf1cf || 0xf1d1 <= n <= 0xfeff
  }

  /** `From<u16> for HidUsagePage`: total on 16-bit codes. */
  function UsagePageFrom(n: U16): (p: HidUsagePage)
    ensures p.VendorDefined? <==> n >= 0xff00
    ensures p.VendorDefined? ==> p.vendorDefined == n
    ensures p.Reserved? ==> p.reserved == n
  {
    match n
    case 0x0000 => Undefined
    case 0x0001 => GenericDesktop
    case 0x0002 => SimulationControls
    case 0x0003 => VRControls
    case 0x0004 => SportControls
    case 0x0005 => GameControls
    case 0x0006 => GenericDeviceControls
    case 0x0007 => Keyboard
    case 0x0008 => LED
    case 0x0009 => Button
    case 0x000a => Ordinal
    case 0x000b => Telephony
    case 0x000c => Consumer
    case 0x000d => Digitizer
    case 0x000e => Haptics
    case 0x000f => PhysicalInput
    case 0x0010 => Unicode
    case 0x0012 => EyeAndHeadTracker
    case 0x0014 => AuxiliaryDisplay
    case 0x0020 => Sensors
    case 0x0040 => MedicalInstrument
    case 0x0041 => BrailleDisplay
    case 0x0059 => Light
    case 0x0080 => Monitor
    case 0x0081 => MonitorEnumerated
    case 0x0082 => VESAVirtualControls
    case 0x0084 => Power
    case 0x0085 => BatterySystem
    case 0x008c => BarcodeScanner
    case 0x008d => Scale
    case 0x008e => MagneticStripeReader
    case 0x0090 => CameraControl
    case 0x0091 => Arcade
    case 0x0092 => GamingDevice
    case 0xf1d0 => FIDO
    case _ => if n >= 0xff00 then VendorDefined(n) else Reserved(n)
  }

  /** The code of a usage page, from the usage tables. */
  function UsagePageCode(p: HidUsagePage): U16
  {
    match p
    case Undefined => 0x0000
    case GenericDesktop => 0x0001
    case SimulationControls => 0x0002
    case VRControls => 0x0003
    case SportControls => 0x0004
    case GameControls => 0x0005
    case GenericDeviceControls => 0x0006
    case Keyboard => 0x0007
    case LED => 0x0008
    case Button => 0x0009
    case Ordinal => 0x000a
    case Telephony => 0x000b
    case Consumer => 0x000c
    case Digitizer => 0x000d
    case Haptics => 0x000e
    case PhysicalInput => 0x000f
    case Unicode => 0x0010
    case EyeAndHeadTracker => 0x0012
    case AuxiliaryDisplay => 0x0014
    case Sensors => 0x0020
    case MedicalInstrument => 0x0040
    case BrailleDisplay => 0x0041
    case Light => 0x0059
    case Monitor => 0x0080
    case MonitorEnumerated => 0x0081
    case VESAVirtualControls => 0x0082
    case Power => 0x0084
    case BatterySystem => 0x0085
    case BarcodeScanner => 0x008c
    case Scale => 0x008d
    case MagneticStripeReader => 0x008e
    case CameraControl => 0x0090
    case Arcade => 0x0091
    case GamingDevice => 0x0092
    case FIDO => 0xf1d0
    case Reserved(n) => n
    case VendorDefined(n) => n
  }

  /** The mapping inverts the usage tables: every named page is recovered from its code. */
  lemma NamedPageRoundTrip(p: HidUsagePage)
    ensures !p.Reserved? && !p.VendorDefined? ==> UsagePageFrom(UsagePageCode(p)) == p
  {
  }

  /** Every code maps to a page with that code, so distinct codes give distinct pages. */
  lemma CodeRoundTrip(n: U16)
    ensures UsagePageCode(UsagePageFrom(n)) == n
  {
  }

  /** The codes without a named page are exactly the ranges the source lists as reserved. */
  lemma ReservedCodes(n: U16)
    ensures UsagePageFrom(n).Reserved? <==> InReservedRange(n)
  {
  }

  /** A duration of whole seconds and nanoseconds, as `std::time::Duration`. */
  datatype Duration = Duration(secs: U64, nanos: nat)

  predicate ValidDuration(d: Duration) { d.nanos < 1_000_000_000 }

  function AsMillis(d: Duration): nat
  {
    d.secs * 1000 + d.nanos / 1_000_000
  }

  const INF_TIMEOUT_MILLIS: int := -1
  const MAX_TIMEOUT_MILLIS: int := I32_MAX

  /**
   * `timeout_millis`: no timeout is -1 (wait forever); a timeout is its
   * milliseconds, saturated at `i32::MAX`. Timeouts must be whole
   * milliseconds.
   */
  function TimeoutMillis(timeout: Option<Duration>): (r: int)
    requires timeout.Some? ==> ValidDuration(timeout.value) && timeout.value.nanos % 1_000_000 == 0
    ensures -1 <= r <= I32_MAX
    ensures r == -1 <==> timeout.None?
    ensures timeout.Some? ==> r == if AsMillis(timeout.value) <= I32_MAX then AsMillis(timeout.value) else I32_MAX
  {
    match timeout
    case None => INF_TIMEOUT_MILLIS
    case Some(d) => if AsMillis(d) < MAX_TIMEOUT_MILLIS then AsMillis(d) else MAX_TIMEOUT_MILLIS
  }

  /** Longer timeouts never give shorter waits. */
  lemma TimeoutMonotonic(a: Duration, b: Duration)
    requires ValidDuration(a) && a.nanos % 1_000_000 == 0
    requires ValidDuration(b) && b.nanos % 1_000_000 == 0
    requires AsMillis(a) <= AsMillis(b)
    ensures 0 <= TimeoutMillis(Some(a)) <= TimeoutMillis(Some(b))
  {
  }

  /** The Unicode `White_Space` characters. */
  const WHITE_SPACE: set<char> := {
    '\U{9}', '\U{A}', '\U{B}', '\U{C}', '\U{D}', '\U{20}', '\U{85}', '\U{A0}', '\U{1680}',
    '\U{2000}', '\U{2001}', '\U{2002}', '\U{2003}', '\U{2004}', '\U{2005}', '\U{2006}', '\U{2007}', '\U{2008}',
    '\U{2009}', '\U{200A}', '\U{2028}', '\U{2029}', '\U{202F}', '\U{205F}', '\U{3000}'
  }

  /** `char::is_whitespace` */
  predicate IsWhitespace(c: char)
  {
    c in WHITE_SPACE
  }

  function TrimStart(s: string): (r: string)
    ensures |r| <= |s| && r == s[|s| - |r|..]
    ensures forall k | 0 <= k < |s| - |r| :: IsWhitespace(s[k])
    ensures r == [] || !IsWhitespace(r[0])
  {
    if |s| > 0 && IsWhitespace(s[0]) then
      var r := TrimStart(s[1..]);
      assert s[1..][|s| - 1 - |r|..] == s[|s| - |r|..];
      assert forall k | 1 <= k < |s| - |r| :: s[k] == s[1..][k - 1];
      r
    else s
  }

  function TrimEnd(s: string): (r: string)
    ensures |r| <= |s| && r == s[..|r|]
    ensures forall k | |r| <= k < |s| :: IsWhitespace(s[k])
    ensures r == [] || !IsWhitespace(r[|r| - 1])
  {
    if |s| > 0 && IsWhitespace(s[|s| - 1]) then TrimEnd(s[..|s| - 1]) else s
  }

  /**
   * `str::trim`: the longest infix that neither starts nor ends with
   * whitespace, after dropping only whitespace on both sides.
   */
  function Trim(s: string): (r: string)
    ensures r == [] || (!IsWhitespace(r[0]) && !IsWhitespace(r[|r| - 1]))
  {
    TrimEnd(TrimStart(s))
  }

  /** `Trim` keeps an infix of its input and drops only whitespace on both sides. */
  lemma TrimInfix(s: string)
    ensures var i := |s| - |TrimStart(s)|;
            var j := i + |Trim(s)|;
            && 0 <= i <= j <= |s| && Trim(s) == s[i..j]
            && (forall k | 0 <= k < i :: IsWhitespace(s[k]))
            && (forall k | j <= k < |s| :: IsWhitespace(s[k]))
  {
    var t := TrimStart(s);
    var r := TrimEnd(t);
    var i := |s| - |t|;
    TrailingWhitespace(s, t, r);
    PrefixOfSuffix(s, t, r);
  }

  /** A prefix of a suffix of `s` is an infix of `s`. */
  lemma PrefixOfSuffix(s: string, t: string, r: string)
    requires |t| <= |s| && t == s[|s| - |t|..] && |r| <= |t| && r == t[..|r|]
    ensures r == s[|s| - |t|..|s| - |t| + |r|]
  {
  }

  /** Whitespace that `TrimEnd` drops from a suffix of `s` is trailing whitespace of `s`. */
  lemma TrailingWhitespace(s: string, t: string, r: string)
    requires |t| <= |s| && t == s[|s| - |t|..] && |r| <= |t|
    requires forall k | |r| <= k < |t| :: IsWhitespace(t[k])
    ensures forall k | |s| - |t| + |r| <= k < |s| :: IsWhitespace(s[k])
  {
    var i := |s| - |t|;
    forall k | i + |r| <= k < |s|
      ensures IsWhitespace(s[k])
    {
      assert s[k] == t[k - i];
    }
  }

  /** A string trims to nothing exactly when it is all whitespace. */
  lemma TrimEmpty(s: string)
    ensures Trim(s) == [] <==> forall k | 0 <= k < |s| :: IsWhitespace(s[k])
  {
    var t := TrimStart(s);
    var r := TrimEnd(t);
    TrailingWhitespace(s, t, r);
    if r != [] {
      assert s[|s| - |t|] == r[0];
    }
  }

  /** What the HID API reports about one device. */
  datatype DeviceInfo = DeviceInfo(path: string, vendorId: U16, productId: U16, serialNumber: Option<string>)

  /** Permanent, connection-independent device identifier with a non-empty serial number. */
  datatype DeviceId = DeviceId(vid: U16, pid: U16, sn: string)

  /** `DeviceId::try_from(&DeviceInfo)` */
  function DeviceIdFrom(info: DeviceInfo): (r: Result<DeviceId, Unit>)
    ensures r.Ok? <==> info.serialNumber.Some? && Trim(info.serialNumber.value) != []
    ensures r.Ok? ==> r.value == DeviceId(info.vendorId, info.productId, Trim(info.serialNumber.value))
  {
    if info.serialNumber.Some? then
      var sn := Trim(info.serialNumber.value);
      if sn != [] then Ok(DeviceId(info.vendorId, info.productId, sn)) else Err(Unit)
    else Err(Unit)
  }

  /** The stored serial number never carries surrounding whitespace. */
  lemma DeviceIdTrimmed(info: DeviceInfo)
    ensures DeviceIdFrom(info).Ok? ==>
              var sn := DeviceIdFrom(info).value.sn;
              sn != [] && !IsWhitespace(sn[0]) && !IsWhitespace(sn[|sn| - 1])
  {
  }

  /** The paths of a device list. */
  function PathsOf(infos: seq<DeviceInfo>): set<string>
  {
    if infos == [] then {} else PathsOf(infos[..|infos| - 1]) + {infos[|infos| - 1].path}
  }

  /** Every device's path is among the paths of its list. */
  lemma {:induction false} PathsOfIndex(infos: seq<DeviceInfo>, i: nat)
    requires i < |infos|
    ensures infos[i].path in PathsOf(infos)
    decreases |infos|
  {
    var n := |infos| - 1;
    if i < n {
      PathsOfIndex(infos[..n], i);
    }
  }

  lemma PathsOfAppend(s: seq<DeviceInfo>, x: DeviceInfo)
    ensures PathsOf(s + [x]) == PathsOf(s) + {x.path}
  {
    assert (s + [x])[..|s|] == s;
  }

  /**
   * The de-duplicated device list, defined element by element: a device
   * is kept iff no earlier device has the same path.
   */
  function Dedup(infos: seq<DeviceInfo>): (kept: seq<DeviceInfo>)
    ensures |kept| <= |infos|
    ensures forall i | 0 <= i < |kept| :: kept[i] in infos
    decreases |infos|
  {
    if infos == [] then []
    else
      var n := |infos| - 1;
      Dedup(infos[..n]) + (if infos[n].path in PathsOf(infos[..n]) then [] else [infos[n]])
  }

  /** The last step of `Dedup`: the last device is kept iff its path is new. */
  lemma {:induction false} DedupLast(infos: seq<DeviceInfo>)
    requires infos != []
    ensures var n := |infos| - 1;
            infos == infos[..n] + [infos[n]] &&
            PathsOf(infos) == PathsOf(infos[..n]) + {infos[n].path} &&
            Dedup(infos) == Dedup(infos[..n]) + (if infos[n].path in PathsOf(infos[..n]) then [] else [infos[n]])
  {
    var n := |infos| - 1;
    assert infos == infos[..n] + [infos[n]];
    assert PathsOf(infos) == PathsOf(infos[..n]) + {infos[n].path};
    assert Dedup(infos) == Dedup(infos[..n]) + (if infos[n].path in PathsOf(infos[..n]) then [] else [infos[n]]);
  }

  /** The kept devices cover every path. */
  lemma {:induction false} DedupCovers(infos: seq<DeviceInfo>)
    ensures PathsOf(Dedup(infos)) == PathsOf(infos)
    decreases |infos|
  {
    if infos != [] {
      var n := |infos| - 1;
      DedupCovers(infos[..n]);
      DedupLast(infos);
      if infos[n].path !in PathsOf(infos[..n]) {
        PathsOfAppend(Dedup(infos[..n]), infos[n]);
      } else {
        assert Dedup(infos) == Dedup(infos[..n]);
      }
    }
  }

  /** The kept devices have pairwise distinct paths. */
  lemma {:induction false} DedupDistinct(infos: seq<DeviceInfo>)
    ensures forall a, b | 0 <= a < b < |Dedup(infos)| :: Dedup(infos)[a].path != Dedup(infos)[b].path
    decreases |infos|
  {
    if infos != [] {
      var n := |infos| - 1;
      DedupDistinct(infos[..n]);
      DedupCovers(infos[..n]);
      DedupLast(infos);
      var p := Dedup(infos[..n]);
      if infos[n].path !in PathsOf(infos[..n]) {
        forall a | 0 <= a < |p|
          ensures p[a].path != infos[n].path
        {
          PathsOfIndex(p, a);
        }
      }
    }
  }

  /** Each kept device is the first device with its path. */
  lemma {:induction false} DedupFirst(infos: seq<DeviceInfo>)
    ensures forall x | x in Dedup(infos) ::
              exists i | 0 <= i < |infos| :: infos[i] == x && x.path !in PathsOf(infos[..i])
    decreases |infos|
  {
    if infos != [] {
      var n := |infos| - 1;
      DedupFirst(infos[..n]);
      DedupLast(infos);
      forall x | x in Dedup(infos)
        ensures exists i | 0 <= i < |infos| :: infos[i] == x && x.path !in PathsOf(infos[..i])
      {
        if x in Dedup(infos[..n]) {
          var i :| 0 <= i < n && infos[..n][i] == x && x.path !in PathsOf(infos[..n][..i]);
          assert infos[..n][..i] == infos[..i];
        } else {
          assert x == infos[n] && x.path !in PathsOf(infos[..n]);
        }
      }
    }
  }

  /**
   * `HidApi::query_devices_dedup` over the list the HID API enumerated:
   * the set of visited paths is filled while filtering.
   */
  method QueryDevicesDedup(infos: seq<DeviceInfo>) returns (kept: seq<DeviceInfo>)
    ensures kept == Dedup(infos)
  {
    var visited: set<string> := {};
    kept := [];
    var i := 0;
    while i < |infos|
      invariant 0 <= i <= |infos|
      invariant visited == PathsOf(infos[..i])
      invariant kept == Dedup(infos[..i])
    {
      assert infos[..i + 1][..i] == infos[..i];
      assert infos[..i + 1] == infos[..i] + [infos[i]];
      PathsOfAppend(infos[..i], infos[i]);
      if infos[i].path !in visited {
        kept := kept + [infos[i]];
      }
      visited := visited + {infos[i].path};
      i := i + 1;
    }
    assert infos[..i] == infos;
  }

  /**
   * A HID device and its connection. What opening the device yields is
   * passed to `Connect`; reads and writes return what the device
   * reports, or `NotConnected` without a connection.
   */
  class HidDevice {
    const info: DeviceInfo
    var connected: bool
    /** The timeouts, in milliseconds, handed to the device by reads. */
    var readTimeouts: seq<int>

    /** `HidDevice::new`: not connected. */
    constructor (info: DeviceInfo)
      ensures this.info == info && !connected && readTimeouts == []
    {
      this.info := info;
      connected := false;
      readTimeouts := [];
    }

    /** `is_connected`: the device holds an open connection. */
    predicate IsConnected()
      reads this
      ensures IsConnected() <==> connected
    {
      connected
    }

    /**
     * `connect`: nothing to do when connected; otherwise the device is
     * opened and switched to blocking mode, and `openResult` is the outcome
     * of those two calls.
     */
    method Connect(openResult: Result<Unit, HidError>) returns (r: Result<Unit, HidError>)
      modifies this
      ensures old(connected) ==> r.Ok? && connected
      ensures !old(connected) ==> r == openResult && (connected <==> openResult.Ok?)
      ensures readTimeouts == old(readTimeouts)
    {
      if connected {
        return Ok(Unit);
      }
      if openResult.Err? {
        return openResult;
      }
      connected := true;
      r := openResult;
    }

    /** `disconnect`: drops the connection, if any. */
    method Disconnect()
      modifies this
      ensures !connected && readTimeouts == old(readTimeouts)
    {
      connected := false;
    }

    /** `read`: a blocking read with the given timeout, which must be whole milliseconds. */
    method Read(timeout: Option<Duration>, outcome: Result<nat, HidError>) returns (r: Result<nat, HidError>)
      requires timeout.Some? ==> ValidDuration(timeout.value) && timeout.value.nanos % 1_000_000 == 0
      modifies this
      ensures connected == old(connected)
      ensures !connected ==> r == Err(Device(NotConnected)) && readTimeouts == old(readTimeouts)
      ensures connected ==> r == outcome && readTimeouts == old(readTimeouts) + [TimeoutMillis(timeout)]
    {
      if !connected {
        return Err(Device(NotConnected));
      }
      readTimeouts := readTimeouts + [TimeoutMillis(timeout)];
      r := outcome;
    }

    /** `write`, `get_feature_report` and `send_feature_report`: the device's answer, if connected. */
    method Write(outcome: Result<nat, HidError>) returns (r: Result<nat, HidError>)
      ensures !connected ==> r == Err(Device(NotConnected))
      ensures connected ==> r == outcome
    {
      if !connected {
        return Err(Device(NotConnected));
      }
      r := outcome;
    }
  }

  /** After a disconnect every read and write fails with `NotConnected`. */
  method DisconnectedDeviceFails(d: HidDevice, outcome: Result<nat, HidError>)
    returns (read: Result<nat, HidError>, written: Result<nat, HidError>)
    modifies d
    ensures !d.IsConnected()
    ensures read == Err(Device(NotConnected)) && written == Err(Device(NotConnected))
  {
    d.Disconnect();
    read := d.Read(None, outcome);
    written := d.Write(outcome);
  }
}
