/**
 * Native Instruments TRAKTOR KONTROL S4 MK3: report statistics, the
 * handling of the HID thread's events, the attach checks and the fixed
 * report sequences that initialize and finalize the device.
 */
module NiTraktorKontrolS4Mk3 {
  import opened Common
  import opened Hid
  import opened HidThread
  import R = HidReport

  /** The maximum of a sequence, or `None` when it is empty. */
  function MaxOf(ds: seq<nat>): (r: Option<nat>)
    ensures r.None? <==> ds == []
    ensures r.Some? ==> (forall k | 0 <= k < |ds| :: ds[k] <= r.value) && r.value in ds
  {
    if ds == [] then None
    else
      var last := ds[|ds| - 1];
      match MaxOf(ds[..|ds| - 1])
      case None => Some(last)
      case Some(m) => Some(if m < last then last else m)
  }

  /** `Instant::duration_since`, which saturates at zero. */
  function DurationSince(later: Instant, earlier: Instant): nat
  {
    if later.nanos >= earlier.nanos then later.nanos - earlier.nanos else 0
  }

  class ReportStats {
    var count: nat
    var lastInstant: Option<Instant>
    var maxDurationSinceLastInstant: Option<nat>
    /** The durations between consecutive updates, oldest first. */
    ghost var durations: seq<nat>

    /**
     * There is a last instant iff an update happened, there is one
     * duration per update but the first, and the maximum is the largest
     * of them.
     */
    ghost predicate Valid()
      reads this
    {
      && (count == 0 <==> lastInstant.None?)
      && |durations| == (if count == 0 then 0 else count - 1)
      && maxDurationSinceLastInstant == MaxOf(durations)
    }

    /** `ReportStats::default`. */
    constructor ()
      ensures Valid() && count == 0 && lastInstant.None? && maxDurationSinceLastInstant.None?
    {
      count, lastInstant, maxDurationSinceLastInstant := 0, None, None;
      durations := [];
    }

    /**
     * `update`: counts one more report and returns the new count with the
     * time since the previous report, none for the first one.
     */
    method Update(instant: Instant) returns (newCount: nat, durationSinceLastInstant: Option<nat>)
      requires Valid()
      modifies this
      ensures Valid()
      ensures count == old(count) + 1 && newCount == count
      ensures lastInstant == Some(instant)
      ensures durationSinceLastInstant.None? <==> old(lastInstant).None?
      ensures durationSinceLastInstant.Some? ==>
                durationSinceLastInstant.value == DurationSince(instant, old(lastInstant).value)
      ensures durations == old(durations) +
                (if durationSinceLastInstant.Some? then [durationSinceLastInstant.value] else [])
    {
      count := count + 1;
      durationSinceLastInstant := match lastInstant
        case None => None
        case Some(last) => Some(DurationSince(instant, last));
      lastInstant := Some(instant);
      maxDurationSinceLastInstant := match durationSinceLastInstant
        case None => None
        case Some(d) => Some(match maxDurationSinceLastInstant
          case Some(m) => if m < d then d else m
          case None => d);
      if durationSinceLastInstant.Some? {
        durations := durations + [durationSinceLastInstant.value];
      }
      newCount := count;
    }
  }

  /** Two updates: the first has no duration, the second the time between them. */
  method UpdateTwice(stats: ReportStats, first: Instant, second: Instant)
    returns (d1: Option<nat>, d2: Option<nat>)
    requires stats.Valid() && stats.count == 0
    modifies stats
    ensures stats.Valid() && stats.count == 2
    ensures d1.None? && d2 == Some(DurationSince(second, first))
    ensures stats.maxDurationSinceLastInstant == d2
  {
    var n1, n2;
    n1, d1 := stats.Update(first);
    n2, d2 := stats.Update(second);
    assert stats.durations == [d2.value];
  }

  /** The events whose buffer goes back to the writer for reuse. */
  predicate RecyclesBuffer(e: Event)
  {
    e.ReportWritten? || e.ReportWriteExpired? || e.FeatureReportWriteError?
  }

  /** Only events that hand a buffer back can recycle it. */
  lemma RecycledBuffersAreReturned(e: Event)
    requires RecyclesBuffer(e)
    ensures ReturnedBuffer(e) == Some(e.buf)
  {
  }

  const REPORT_ID_COUNT: nat := 256

  /** The context of the HID thread: statistics per report id and the sending end of the recycle channel. */
  class ThreadContext {
    const reportStatsById: seq<ReportStats>
    /** The buffers sent back for recycling, oldest first. */
    var recycledBuffers: seq<R.Buffer>

    ghost function StatsObjects(): set<object>
    {
      set i | 0 <= i < |reportStatsById| :: reportStatsById[i] as object
    }

    ghost predicate Valid()
      reads this, StatsObjects()
    {
      |reportStatsById| == REPORT_ID_COUNT && forall i | 0 <= i < REPORT_ID_COUNT :: reportStatsById[i].Valid()
    }

    /** The context built by `attach`: one fresh statistics slot per report id. */
    constructor ()
      ensures Valid() && recycledBuffers == []
      ensures forall i | 0 <= i < REPORT_ID_COUNT :: reportStatsById[i].count == 0
    {
      var stats: seq<ReportStats> := [];
      while |stats| < REPORT_ID_COUNT
        invariant |stats| <= REPORT_ID_COUNT
        invariant forall i | 0 <= i < |stats| :: stats[i].Valid() && stats[i].count == 0
      {
        var s := new ReportStats();
        stats := stats + [s];
      }
      reportStatsById := stats;
      recycledBuffers := [];
    }

    /**
     * `handle_event`: a report updates the statistics of its report id;
     * the buffers of written and expired reports and of failed feature
     * report writes are recycled; nothing else has an effect.
     */
    method HandleEvent(event: Event, now: Instant)
      requires Valid()
      requires event.ReportRead? ==> |event.data| > 0
      modifies this, if event.ReportRead? then {reportStatsById[event.data[0]]} else {}
      ensures Valid()
      ensures recycledBuffers == old(recycledBuffers) + (if RecyclesBuffer(event) then [event.buf] else [])
      ensures event.ReportRead? ==>
                var stats := reportStatsById[event.data[0]];
                stats.count == old(stats.count) + 1 && stats.lastInstant == Some(now)
    {
      match event
      case ReportRead(data) =>
        var stats := reportStatsById[data[0]];
        var count, duration := stats.Update(now);
      case ReportWritten(buf, _, _) =>
        recycledBuffers := recycledBuffers + [buf];
      case ReportWriteExpired(buf, _, _) =>
        recycledBuffers := recycledBuffers + [buf];
      case FeatureReportWriteError(buf, _, _) =>
        recycledBuffers := recycledBuffers + [buf];
      case _ =>
    }
  }

  const VENDOR_ID: U16 := 0x17cc
  const PRODUCT_ID: U16 := 0x1720

  /** `is_supported`: the device's vendor and product ids. */
  predicate IsSupported(info: DeviceInfo)
    ensures IsSupported(info) <==> info.vendorId == 0x17cc && info.productId == 0x1720
  {
    info.vendorId == VENDOR_ID && info.productId == PRODUCT_ID
  }

  /**
   * The outcome of `attach`: an unsupported device is refused before its
   * connection is looked at, then a disconnected one; a supported,
   * connected device is always attached, since spawning the thread only
   * fails for a disconnected device.
   */
  function AttachOutcome(info: DeviceInfo, connected: bool): (r: Result<Unit, HidError>)
    ensures r == Err(Device(NotSupported)) <==> !IsSupported(info)
    ensures r == Err(Device(NotConnected)) <==> IsSupported(info) && !connected
    ensures r.Ok? <==> IsSupported(info) && connected
  {
    if !IsSupported(info) then Err(Device(NotSupported))
    else if !connected then Err(Device(NotConnected))
    else Ok(Unit)
  }

  /** `attach`: a fresh context for a supported, connected device. */
  method Attach(device: HidDevice) returns (r: Result<DeviceContext, HidError>)
    ensures r.Ok? <==> AttachOutcome(device.info, device.connected).Ok?
    ensures r.Err? ==> r.error == AttachOutcome(device.info, device.connected).error
    ensures r.Ok? ==> fresh(r.value) && fresh(r.value.recycler) && r.value.Valid() &&
                      r.value.info == device.info && r.value.commands == []
  {
    if !IsSupported(device.info) {
      return Err(Device(NotSupported));
    }
    if !device.connected {
      return Err(Device(NotConnected));
    }
    var context := new DeviceContext(device.info);
    r := Ok(context);
  }

  /** A report of `len` bytes with id `id` and all other bytes zero. */
  function ZeroReport(id: Byte, len: nat): (r: R.Buffer)
    requires len > 0
    ensures |r| == len && r[0] == id && forall k | 1 <= k < len :: r[k] == 0
  {
    [id] + seq(len - 1, _ => 0)
  }

  /** The report that activates jog wheel `wheel`: id 48, the wheel, then 1 and 3. */
  function InitReport(wheel: Byte): R.Buffer
  {
    ZeroReport(48, 27)[1 := wheel][2 := 1][3 := 3]
  }

  /** The report that deactivates jog wheel `wheel`: id 50 and the wheel. */
  function FinalReport(wheel: Byte): R.Buffer
  {
    ZeroReport(50, 41)[1 := wheel]
  }

  function WriteCommand(data: R.Buffer): Command
  {
    WriteReport(data, |data|, None)
  }

  /** The initialization sequence: both jog wheels are activated, wheel 0 first. */
  function InitializeSequence(): seq<R.Buffer>
  {
    [InitReport(0), InitReport(1)]
  }

  /**
   * The finalization sequence: button LEDs off, meter LEDs off, then both
   * jog wheels deactivated.
   */
  function FinalizeSequence(): seq<R.Buffer>
  {
    [ZeroReport(128, 95), ZeroReport(129, 79), FinalReport(0), FinalReport(1)]
  }

  /** The layout of every report the two sequences write. */
  lemma SequenceLayout()
    ensures forall w: Byte | w < 2 ::
              var r := InitReport(w);
              |r| == 27 && r[0] == 48 && r[1] == w && r[2] == 1 && r[3] == 3 &&
              forall k | 4 <= k < 27 :: r[k] == 0
    ensures forall w: Byte | w < 2 ::
              var r := FinalReport(w);
              |r| == 41 && r[0] == 50 && r[1] == w && forall k | 2 <= k < 41 :: r[k] == 0
    ensures |FinalizeSequence()| == 4 && |InitializeSequence()| == 2
    ensures forall i | 0 <= i < 4 :: FinalizeSequence()[i][0] in {128, 129, 50}
  {
  }

  /** Every queued report is non-empty, so it has a report id in its first byte. */
  predicate ValidQueue(bufs: seq<R.Buffer>)
  {
    forall k | 0 <= k < |bufs| :: |bufs[k]| > 0
  }

  /** The buffers of one report id among `bufs`, in order. */
  function OfReportId(bufs: seq<R.Buffer>, id: Byte): seq<R.Buffer>
    requires ValidQueue(bufs)
  {
    if bufs == [] then []
    else (if bufs[0][0] == id then [bufs[0]] else []) + OfReportId(bufs[1..], id)
  }

  /** The recycler's slots after pushing `bufs` in order. */
  function PushAll(slots: seq<seq<R.Buffer>>, bufs: seq<R.Buffer>): (r: seq<seq<R.Buffer>>)
    requires |slots| == R.REPORT_ID_COUNT && ValidQueue(bufs)
    ensures |r| == R.REPORT_ID_COUNT
    decreases |bufs|
  {
    if bufs == [] then slots
    else
      var b := bufs[0];
      PushAll(slots[b[0] := slots[b[0]] + [b]], bufs[1..])
  }

  /** Pushing buffers in order appends to each slot exactly the buffers of its report id. */
  lemma {:induction false} PushAllSlots(slots: seq<seq<R.Buffer>>, bufs: seq<R.Buffer>, id: Byte)
    requires |slots| == R.REPORT_ID_COUNT && ValidQueue(bufs)
    ensures PushAll(slots, bufs)[id] == slots[id] + OfReportId(bufs, id)
    decreases |bufs|
  {
    if bufs != [] {
      var b := bufs[0];
      var next := slots[b[0] := slots[b[0]] + [b]];
      var mine := if b[0] == id then [b] else [];
      assert PushAll(slots, bufs) == PushAll(next, bufs[1..]);
      assert OfReportId(bufs, id) == mine + OfReportId(bufs[1..], id);
      assert next[id] == slots[id] + mine;
      PushAllSlots(next, bufs[1..], id);
      assert slots[id] + mine + OfReportId(bufs[1..], id) == slots[id] + (mine + OfReportId(bufs[1..], id));
    }
  }

  /** The writer's side of the device context. */
  class DeviceContext {
    const info: DeviceInfo
    const recycler: R.BufferRecycler
    /** Buffers sent back by the thread and not yet received, oldest first. */
    var recycleQueue: seq<R.Buffer>
    /** Commands submitted to the thread, oldest first. */
    var commands: seq<Command>

    predicate Valid()
      reads this, recycler
    {
      recycler.Valid() && ValidQueue(recycleQueue)
    }

    /** The context of a freshly attached device. */
    constructor (info: DeviceInfo)
      ensures Valid() && this.info == info && fresh(recycler)
      ensures recycleQueue == [] && commands == []
      ensures forall id | 0 <= id < R.REPORT_ID_COUNT :: recycler.recycled[id] == []
    {
      this.info := info;
      recycler := new R.BufferRecycler();
      recycleQueue := [];
      commands := [];
    }

    /** The thread sends a buffer back through the recycle channel. */
    method SendRecycled(buf: R.Buffer)
      requires Valid() && |buf| > 0
      modifies this
      ensures Valid() && recycleQueue == old(recycleQueue) + [buf] && commands == old(commands)
    {
      recycleQueue := recycleQueue + [buf];
    }

    /** `recycle_queued_buffers`: every queued buffer goes back into its slot of the recycler, in order. */
    method RecycleQueuedBuffers()
      requires Valid()
      modifies this, recycler
      ensures Valid() && recycleQueue == [] && commands == old(commands)
      ensures recycler.recycled == PushAll(old(recycler.recycled), old(recycleQueue))
    {
      while recycleQueue != []
        invariant Valid()
        invariant PushAll(recycler.recycled, recycleQueue) == PushAll(old(recycler.recycled), old(recycleQueue))
        invariant commands == old(commands)
        decreases |recycleQueue|
      {
        var buf := recycleQueue[0];
        recycleQueue := recycleQueue[1..];
        recycler.RecycleBuf(buf);
      }
    }

    /**
     * `write_report`: recycles the queued buffers, fills a buffer with
     * `data` and submits it to be written without a deadline.
     */
    method WriteReport(data: R.Buffer)
      requires Valid() && |data| > 0
      modifies this, recycler
      ensures Valid() && recycleQueue == []
      ensures commands == old(commands) + [WriteCommand(data)]
    {
      RecycleQueuedBuffers();
      var buf := recycler.FillBuf(data);
      commands := commands + [Command.WriteReport(buf, |buf|, None)];
    }

    /** `initialize`: writes the initialization sequence from one reused array. */
    method Initialize()
      requires Valid()
      modifies this, recycler
      ensures Valid()
      ensures commands == old(commands) + [WriteCommand(InitializeSequence()[0]), WriteCommand(InitializeSequence()[1])]
    {
      var data := new Byte[27](_ => 0);
      data[0] := 48;
      data[2] := 1;
      data[3] := 3;
      assert data[..] == InitReport(0);
      WriteReport(data[..]);
      data[1] := 1;
      assert data[..] == InitReport(1);
      WriteReport(data[..]);
    }

    /** `finalize`: writes the finalization sequence. */
    method Finalize()
      requires Valid()
      modifies this, recycler
      ensures Valid()
      ensures commands == old(commands) + seq(4, i requires 0 <= i < 4 => WriteCommand(FinalizeSequence()[i]))
    {
      WriteZeroReport(128, 95);
      WriteZeroReport(129, 79);
      var wheels := new Byte[41](_ => 0);
      wheels[0] := 50;
      assert wheels[..] == FinalReport(0);
      WriteReport(wheels[..]);
      wheels[1] := 1;
      assert wheels[..] == FinalReport(1);
      WriteReport(wheels[..]);
      ghost var written := commands[|old(commands)|..];
      assert written == [WriteCommand(ZeroReport(128, 95)), WriteCommand(ZeroReport(129, 79)),
                         WriteCommand(FinalReport(0)), WriteCommand(FinalReport(1))];
    }

    /** Writes a report of `len` bytes that holds only its id. */
    method WriteZeroReport(id: Byte, len: nat)
      requires Valid() && len > 0
      modifies this, recycler
      ensures Valid()
      ensures commands == old(commands) + [WriteCommand(ZeroReport(id, len))]
    {
      var report := new Byte[len](_ => 0);
      report[0] := id;
      assert report[..] == ZeroReport(id, len);
      WriteReport(report[..]);
    }
  }
}
