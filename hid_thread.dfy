/**
 * The HID worker thread: commands from the owner are executed on the
 * device one per cycle, and every cycle drains the device's input
 * reports, delivering each report unless it repeats the last one
 * delivered. The device, the command channel and the clock are outside
 * the model: what they answer is given up front, cycle by cycle and read
 * by read.
 */
module HidThread {
  import opened Common
  import opened Hid

  type Buffer = seq<Byte>

  /** A point in time, in nanoseconds. */
  datatype Instant = Instant(nanos: nat)

  /** Durations are in nanoseconds. */
  const MILLI: nat := 1_000_000
  const READ_BUFFER_SIZE: nat := 1 + 16384
  const MIN_READ_TIMEOUT: nat := MILLI
  const FIRST_READ_TIMEOUT: nat := MIN_READ_TIMEOUT

  datatype State = Starting | Running | Terminating

  datatype Event =
    | StateChanged(state: State)
    | ReportRead(data: Buffer)
    | ReportReadError(readErr: HidError)
    | ReportWritten(buf: Buffer, bufLen: nat, bytesWritten: nat)
    | ReportWriteError(buf: Buffer, bufLen: nat, err: HidError)
    | ReportWriteExpired(buf: Buffer, bufLen: nat, deadline: Instant)
    | FeatureReportRead(buf: Buffer, bufLen: nat)
    | FeatureReportReadError(buf: Buffer, err: HidError)
    | FeatureReportWritten(buf: Buffer, bufLen: nat)
    | FeatureReportWriteError(buf: Buffer, bufLen: nat, err: HidError)

  datatype Command =
    | ReadFeatureReport(buf: Buffer)
    | WriteFeatureReport(buf: Buffer, bufLen: nat)
    | WriteReport(buf: Buffer, bufLen: nat, deadline: Option<Instant>)
    | Terminate

  /** What a command asks of the device. */
  datatype DeviceCall =
    | GetFeatureReport(size: nat)
    | SendFeatureReport(data: Buffer)
    | Write(data: Buffer)

  /** Commands must carry a buffer, and written lengths must lie within it. */
  predicate ValidCommand(command: Command)
  {
    match command
    case ReadFeatureReport(buf) => |buf| > 0
    case WriteFeatureReport(buf, bufLen) => 0 < bufLen <= |buf|
    case WriteReport(buf, bufLen, _) => 0 < bufLen <= |buf|
    case Terminate => true
  }

  /** The buffer an event hands back for recycling, if any. */
  function ReturnedBuffer(e: Event): Option<Buffer>
  {
    match e
    case ReportWritten(buf, _, _) => Some(buf)
    case ReportWriteError(buf, _, _) => Some(buf)
    case ReportWriteExpired(buf, _, _) => Some(buf)
    case FeatureReportRead(buf, _) => Some(buf)
    case FeatureReportReadError(buf, _) => Some(buf)
    case FeatureReportWritten(buf, _) => Some(buf)
    case FeatureReportWriteError(buf, _, _) => Some(buf)
    case _ => None
  }

  /**
   * A command executed on the device, given whether a report write has
   * expired and the device's answer to the call: the number of bytes
   * read or written, or an error. The contents a feature-report read
   * puts into the buffer are not modelled.
   */
  function Dispatch(command: Command, expired: bool, answer: Result<nat, HidError>): (r: (Option<DeviceCall>, Option<Event>))
    requires ValidCommand(command)
    requires expired ==> command.WriteReport? && command.deadline.Some?
    ensures r.1.None? <==> command.Terminate?
    ensures r.0.None? <==> command.Terminate? || expired
    ensures r.1.Some? ==> ReturnedBuffer(r.1.value) == Some(command.buf)
    ensures command.WriteReport? ==>
              (r.1.value.ReportWriteExpired? <==> expired) &&
              (!expired ==> r.0 == Some(Write(command.buf[..command.bufLen])) &&
                            (r.1.value.ReportWritten? <==> answer.Ok?))
  {
    match command
    case Terminate => (None, None)
    case ReadFeatureReport(buf) =>
      (Some(GetFeatureReport(|buf|)),
       match answer
       case Ok(n) => Some(FeatureReportRead(buf, n))
       case Err(err) => Some(FeatureReportReadError(buf, err)))
    case WriteFeatureReport(buf, bufLen) =>
      (Some(SendFeatureReport(buf[..bufLen])),
       match answer
       case Ok(_) => Some(FeatureReportWritten(buf, bufLen))
       case Err(err) => Some(FeatureReportWriteError(buf, bufLen, err)))
    case WriteReport(buf, bufLen, deadline) =>
      if expired then (None, Some(ReportWriteExpired(buf, bufLen, deadline.value)))
      else
        (Some(Write(buf[..bufLen])),
         match answer
         case Ok(n) => Some(ReportWritten(buf, bufLen, n))
         case Err(err) => Some(ReportWriteError(buf, bufLen, err)))
  }

  /** The expiry test as written: a deadline that lies in the future counts as expired. */
  predicate ExpiredAsWritten(deadline: Option<Instant>, now: Instant)
  {
    deadline.Some? && deadline.value.nanos > now.nanos
  }

  /** A deadline has expired once it lies in the past. */
  predicate Expired(deadline: Option<Instant>, now: Instant)
  {
    deadline.Some? && deadline.value.nanos < now.nanos
  }

  /** `handle_command` as written. */
  function HandleCommand(command: Command, now: Instant, answer: Result<nat, HidError>): (r: (Option<DeviceCall>, Option<Event>))
    requires ValidCommand(command)
    ensures r.1.None? <==> command.Terminate?
    ensures command.WriteReport? ==>
              (r.0.None? <==> ExpiredAsWritten(command.deadline, now)) &&
              (r.1.value.ReportWriteExpired? <==> ExpiredAsWritten(command.deadline, now))
  {
    Dispatch(command, command.WriteReport? && ExpiredAsWritten(command.deadline, now), answer)
  }

  /** `handle_command` with writes dropped only once their deadline has passed. */
  function HandleCommandCorrected(command: Command, now: Instant, answer: Result<nat, HidError>): (r: (Option<DeviceCall>, Option<Event>))
    requires ValidCommand(command)
    ensures r.1.None? <==> command.Terminate?
    ensures command.WriteReport? ==>
              (r.0.None? <==> Expired(command.deadline, now)) &&
              (r.1.value.ReportWriteExpired? <==> Expired(command.deadline, now))
  {
    Dispatch(command, command.WriteReport? && Expired(command.deadline, now), answer)
  }

  /**
   * As written, a report whose deadline is still ahead is dropped as
   * expired, while one whose deadline has passed is written.
   */
  lemma DeadlineInverted(buf: Buffer, now: Instant, answer: Result<nat, HidError>)
    requires |buf| > 0 && now.nanos > 0
    ensures var ahead := WriteReport(buf, |buf|, Some(Instant(now.nanos + 1)));
            HandleCommand(ahead, now, answer) == (None, Some(ReportWriteExpired(buf, |buf|, Instant(now.nanos + 1))))
    ensures var passed := WriteReport(buf, |buf|, Some(Instant(now.nanos - 1)));
            HandleCommand(passed, now, answer).0 == Some(Write(buf))
  {
    assert buf[..|buf|] == buf;
  }

  /**
   * Corrected, a report is written unless its deadline has passed, and
   * every command but `Terminate` yields an event returning its buffer.
   */
  lemma WriteBeforeDeadline(command: Command, now: Instant, answer: Result<nat, HidError>)
    requires ValidCommand(command) && command.WriteReport?
    requires command.deadline.None? || command.deadline.value.nanos >= now.nanos
    ensures HandleCommandCorrected(command, now, answer).0 == Some(Write(command.buf[..command.bufLen]))
    ensures ReturnedBuffer(HandleCommandCorrected(command, now, answer).1.value) == Some(command.buf)
  {
  }

  /**
   * The timeout of the first read in a cycle: what is left of
   * `FIRST_READ_TIMEOUT` since the last delivering cycle started,
   * truncated to milliseconds but at least `MIN_READ_TIMEOUT`, or zero
   * once that time is up.
   */
  function FirstReadTimeout(elapsed: nat): (t: nat)
    ensures t == 0 <==> elapsed >= FIRST_READ_TIMEOUT
    ensures t != 0 ==> MIN_READ_TIMEOUT <= t <= FIRST_READ_TIMEOUT && t % MILLI == 0
  {
    if FIRST_READ_TIMEOUT > elapsed then
      var t := FIRST_READ_TIMEOUT - elapsed;
      if t < MIN_READ_TIMEOUT then MIN_READ_TIMEOUT else (t / MILLI) * MILLI
    else 0
  }

  /**
   * With the first-read timeout equal to the minimum one, the first read
   * of a cycle waits exactly one millisecond or not at all.
   */
  lemma FirstReadTimeoutValues(elapsed: nat)
    ensures FirstReadTimeout(elapsed) == if elapsed < FIRST_READ_TIMEOUT then MIN_READ_TIMEOUT else 0
  {
  }

  /** What the device answers to one read: a report (empty if none is pending) or an error. */
  datatype ReadResult = ReadOk(report: Buffer) | ReadErr(err: HidError)

  /** What the command channel yields at the start of a cycle. */
  datatype Received = ChannelDisconnected | NoCommand | Received(command: Command)

  /**
   * One cycle of the loop: the command poll, the clock when a write
   * deadline is checked, the device's answer to the command and the
   * clock when the read cycle starts, after throttling.
   */
  datatype Cycle = Cycle(received: Received, now: Instant, answer: Result<nat, HidError>, readCycleStarted: Instant)

  /** The non-empty reports among the first `n` read results, in order. */
  function ReportsOf(results: seq<ReadResult>, n: nat): seq<Buffer>
    requires n <= |results|
  {
    if n == 0 then []
    else
      var last := results[n - 1];
      ReportsOf(results, n - 1) + (if last.ReadOk? && last.report != [] then [last.report] else [])
  }

  /** The errors among the first `n` read results, in order. */
  function ReadErrorsOf(results: seq<ReadResult>, n: nat): seq<HidError>
    requires n <= |results|
  {
    if n == 0 then []
    else
      var last := results[n - 1];
      ReadErrorsOf(results, n - 1) + (if last.ReadErr? then [last.err] else [])
  }

  /** The reports delivered by a sequence of events. */
  function DeliveredOf(events: seq<Event>): seq<Buffer>
  {
    if events == [] then []
    else
      var last := events[|events| - 1];
      DeliveredOf(events[..|events| - 1]) + (if last.ReportRead? then [last.data] else [])
  }

  /** The read errors reported by a sequence of events. */
  function ErrorEventsOf(events: seq<Event>): seq<HidError>
  {
    if events == [] then []
    else
      var last := events[|events| - 1];
      ErrorEventsOf(events[..|events| - 1]) + (if last.ReportReadError? then [last.readErr] else [])
  }

  /** A sequence with every run of equal consecutive elements cut down to one. */
  function DropRepeats(rs: seq<Buffer>): seq<Buffer>
  {
    if rs == [] then []
    else
      var n := |rs| - 1;
      DropRepeats(rs[..n]) + (if n > 0 && rs[n] == rs[n - 1] then [] else [rs[n]])
  }

  /** The most recent report, or the empty buffer before the first one. */
  function LastReport(rs: seq<Buffer>): Buffer
  {
    if rs == [] then [] else rs[|rs| - 1]
  }

  /**
   * `DropRepeats` keeps the first element and each element that differs
   * from its predecessor, so no two neighbours of its result are equal,
   * and it ends with the last element.
   */
  lemma {:induction false} DropRepeatsProperties(rs: seq<Buffer>)
    ensures forall k | 0 < k < |DropRepeats(rs)| :: DropRepeats(rs)[k] != DropRepeats(rs)[k - 1]
    ensures rs != [] ==> DropRepeats(rs) != [] && LastReport(DropRepeats(rs)) == LastReport(rs)
    ensures |DropRepeats(rs)| <= |rs|
    decreases |rs|
  {
    if rs != [] {
      var n := |rs| - 1;
      DropRepeatsProperties(rs[..n]);
      if n > 0 {
        assert rs[..n][n - 1] == rs[n - 1];
      }
    }
  }

  /** The reports of the emptied device are all small enough for the read buffer. */
  predicate ValidReads(results: seq<ReadResult>)
  {
    forall k | 0 <= k < |results| :: results[k].ReadOk? ==> |results[k].report| < READ_BUFFER_SIZE
  }

  /** Commands are well-formed and the clock never runs backwards. */
  predicate ValidCycles(cycles: seq<Cycle>, start: Instant)
  {
    && (forall c | 0 <= c < |cycles| :: cycles[c].received.Received? ==> ValidCommand(cycles[c].received.command))
    && (forall c | 0 <= c < |cycles| :: start.nanos <= cycles[c].readCycleStarted.nanos)
    && (forall c, d | 0 <= c < d < |cycles| :: cycles[c].readCycleStarted.nanos <= cycles[d].readCycleStarted.nanos)
  }

  /** The reader's double buffer: two slots and the one holding the last delivered report. */
  datatype Reader = Reader(slots: seq<Buffer>, lastSlot: nat, lastReadCycleStarted: Instant)

  /** The last delivered slot holds the most recent report among the first `ri` results. */
  predicate ReaderValid(reader: Reader, results: seq<ReadResult>, ri: nat)
    requires ri <= |results|
  {
    |reader.slots| == 2 && reader.lastSlot < 2 &&
    reader.slots[reader.lastSlot] == LastReport(ReportsOf(results, ri))
  }

  /**
   * The events account for the first `ri` results: every error is
   * reported, and the reports are delivered without repeats.
   */
  predicate Accounted(events: seq<Event>, results: seq<ReadResult>, ri: nat)
    requires ri <= |results|
  {
    DeliveredOf(events) == DropRepeats(ReportsOf(results, ri)) &&
    ErrorEventsOf(events) == ReadErrorsOf(results, ri)
  }

  /** Appending an event that is neither a report nor a read error keeps the account. */
  lemma AccountedOther(events: seq<Event>, e: Event, results: seq<ReadResult>, ri: nat)
    requires ri <= |results| && Accounted(events, results, ri)
    requires !e.ReportRead? && !e.ReportReadError?
    ensures Accounted(events + [e], results, ri)
  {
    assert (events + [e])[..|events|] == events;
  }

  /** The account after one more read result. */
  lemma AccountedStep(events: seq<Event>, results: seq<ReadResult>, ri: nat)
    requires ri < |results|
    ensures ReportsOf(results, ri + 1) ==
              ReportsOf(results, ri) +
              (if results[ri].ReadOk? && results[ri].report != [] then [results[ri].report] else [])
    ensures ReadErrorsOf(results, ri + 1) ==
              ReadErrorsOf(results, ri) + (if results[ri].ReadErr? then [results[ri].err] else [])
  {
  }

  lemma DropRepeatsStep(rs: seq<Buffer>, x: Buffer)
    ensures DropRepeats(rs + [x]) == DropRepeats(rs) + (if rs != [] && x == LastReport(rs) then [] else [x])
  {
    assert (rs + [x])[..|rs|] == rs;
  }

  /** A read error is reported. */
  lemma AccountedError(events: seq<Event>, results: seq<ReadResult>, ri: nat)
    requires ri < |results| && results[ri].ReadErr? && Accounted(events, results, ri)
    ensures Accounted(events + [ReportReadError(results[ri].err)], results, ri + 1)
    ensures ReportsOf(results, ri + 1) == ReportsOf(results, ri)
  {
    AccountedStep(events, results, ri);
    assert ReportsOf(results, ri) + [] == ReportsOf(results, ri);
    assert (events + [ReportReadError(results[ri].err)])[..|events|] == events;
    assert DeliveredOf(events) + [] == DeliveredOf(events);
  }

  /** An empty read changes nothing. */
  lemma AccountedEmpty(events: seq<Event>, results: seq<ReadResult>, ri: nat)
    requires ri < |results| && results[ri].ReadOk? && results[ri].report == [] && Accounted(events, results, ri)
    ensures Accounted(events, results, ri + 1)
    ensures ReportsOf(results, ri + 1) == ReportsOf(results, ri)
  {
    AccountedStep(events, results, ri);
    assert ReportsOf(results, ri) + [] == ReportsOf(results, ri);
    assert ReadErrorsOf(results, ri) + [] == ReadErrorsOf(results, ri);
  }

  /** A report equal to the last one is not delivered again. */
  lemma AccountedRepeat(events: seq<Event>, results: seq<ReadResult>, ri: nat)
    requires ri < |results| && results[ri].ReadOk? && results[ri].report != [] && Accounted(events, results, ri)
    requires results[ri].report == LastReport(ReportsOf(results, ri))
    ensures Accounted(events, results, ri + 1)
    ensures LastReport(ReportsOf(results, ri + 1)) == results[ri].report
  {
    AccountedStep(events, results, ri);
    DropRepeatsStep(ReportsOf(results, ri), results[ri].report);
  }

  /** A report that differs from the last one is delivered. */
  lemma AccountedFresh(events: seq<Event>, results: seq<ReadResult>, ri: nat)
    requires ri < |results| && results[ri].ReadOk? && results[ri].report != [] && Accounted(events, results, ri)
    requires results[ri].report != LastReport(ReportsOf(results, ri))
    ensures Accounted(events + [ReportRead(results[ri].report)], results, ri + 1)
    ensures LastReport(ReportsOf(results, ri + 1)) == results[ri].report
  {
    AccountedStep(events, results, ri);
    DropRepeatsStep(ReportsOf(results, ri), results[ri].report);
    assert (events + [ReportRead(results[ri].report)])[..|events|] == events;
  }

  /**
   * One read request of a cycle, on the next result: a read error is
   * reported; a report is read into the slot not holding the last
   * delivered one and delivered iff it differs from it. Reading goes on
   * unless nothing was pending.
   */
  method ReadOnce(results: seq<ReadResult>, ri: nat, reader0: Reader, events0: seq<Event>,
                  readCycleStarted: Instant)
    returns (reader: Reader, events: seq<Event>, more: bool)
    requires ri < |results| && ReaderValid(reader0, results, ri) && Accounted(events0, results, ri)
    ensures ReaderValid(reader, results, ri + 1) && Accounted(events, results, ri + 1)
    ensures !more <==> results[ri].ReadOk? && results[ri].report == []
    ensures CommandEventsOf(events) == CommandEventsOf(events0)
    ensures DeliveredCount(results, ri) <= DeliveredCount(results, ri + 1)
    ensures reader.lastReadCycleStarted ==
              if DeliveredBetween(results, ri, ri + 1) then readCycleStarted else reader0.lastReadCycleStarted
  {
    reader, events := reader0, events0;
    var readSlot := (reader.lastSlot + 1) % 2;
    var result := results[ri];
    if result.ReadErr? {
      AccountedError(events, results, ri);
      EventsAppend(events, ReportReadError(result.err));
      events := events + [ReportReadError(result.err)];
      return reader, events, true;
    }
    if result.report == [] {
      // No report received
      AccountedEmpty(events, results, ri);
      return reader, events, false;
    }
    var slots := reader.slots[readSlot := result.report];
    if |slots[readSlot]| == |slots[reader.lastSlot]| && slots[readSlot] == slots[reader.lastSlot] {
      // Discard a duplicate report
      AccountedRepeat(events, results, ri);
      reader := reader.(slots := slots);
      return reader, events, true;
    }
    AccountedFresh(events, results, ri);
    EventsAppend(events, ReportRead(slots[readSlot]));
    reader := Reader(slots, readSlot, readCycleStarted);
    events := events + [ReportRead(slots[readSlot])];
    more := true;
  }

  /** A successful read that returned no report: nothing is pending. */
  predicate EmptyRead(r: ReadResult)
  {
    r.ReadOk? && r.report == []
  }

  /**
   * The reads `from` up to `to` form one complete cycle: every read but
   * the last one found a report or failed, and unless the results ran
   * out, the cycle ended on a read that found no report.
   */
  predicate Drained(results: seq<ReadResult>, from: nat, to: nat)
  {
    && (forall k | from <= k && k + 1 < to && k < |results| :: !EmptyRead(results[k]))
    && (to < |results| ==> from < to && EmptyRead(results[to - 1]))
  }

  /**
   * One read cycle: reads until no report is pending, waiting at most
   * `firstTimeout` for the first read only.
   */
  method ReadCycle(results: seq<ReadResult>, ri0: nat, reader0: Reader, events0: seq<Event>,
                   firstTimeout: nat, readCycleStarted: Instant)
    returns (ri: nat, reader: Reader, events: seq<Event>, timeouts: seq<nat>)
    requires ri0 <= |results| && ReaderValid(reader0, results, ri0) && Accounted(events0, results, ri0)
    ensures ri0 <= ri <= |results| && ReaderValid(reader, results, ri) && Accounted(events, results, ri)
    ensures Drained(results, ri0, ri)
    ensures timeouts == WaitFirst(firstTimeout, ri - ri0)
    ensures CommandEventsOf(events) == CommandEventsOf(events0)
    ensures reader.lastReadCycleStarted ==
              if DeliveredBetween(results, ri0, ri) then readCycleStarted else reader0.lastReadCycleStarted
  {
    ri, reader, events, timeouts := ri0, reader0, events0, [];
    var nextReadTimeout := firstTimeout;
    while ri < |results|
      invariant ri0 <= ri <= |results| && ReaderValid(reader, results, ri) && Accounted(events, results, ri)
      invariant forall k | ri0 <= k < ri :: !EmptyRead(results[k])
      invariant timeouts == WaitFirst(firstTimeout, ri - ri0)
      invariant nextReadTimeout == if ri == ri0 then firstTimeout else 0
      invariant CommandEventsOf(events) == CommandEventsOf(events0)
      invariant DeliveredCount(results, ri0) <= DeliveredCount(results, ri)
      invariant reader.lastReadCycleStarted ==
                  if DeliveredBetween(results, ri0, ri) then readCycleStarted else reader0.lastReadCycleStarted
      decreases |results| - ri
    {
      var readTimeout := nextReadTimeout;
      // Reset the timeout for all subsequent read requests.
      nextReadTimeout := 0;
      timeouts := timeouts + [readTimeout];
      var more;
      reader, events, more := ReadOnce(results, ri, reader, events, readCycleStarted);
      ri := ri + 1;
      if !more {
        break;
      }
    }
  }

  /** The timeouts of `n` reads of which only the first waits, for `first`. */
  function WaitFirst(first: nat, n: nat): seq<nat>
  {
    if n == 0 then [] else WaitFirst(first, n - 1) + [if n == 1 then first else 0]
  }

  lemma {:induction false} WaitFirstShape(first: nat, n: nat)
    ensures var r := WaitFirst(first, n);
            |r| == n && (n > 0 ==> r[0] == first) && forall k | 0 < k < n :: r[k] == 0
  {
    if n > 0 {
      WaitFirstShape(first, n - 1);
    }
  }

  /**
   * The timeouts of all reads when cycle `c` performs `counts[c]` reads
   * and waits `firsts[c]` on the first of them.
   */
  function TimeoutsOf(firsts: seq<nat>, counts: seq<nat>): seq<nat>
    requires |counts| == |firsts|
  {
    if firsts == [] then []
    else
      var n := |firsts|;
      TimeoutsOf(firsts[..n - 1], counts[..n - 1]) + WaitFirst(firsts[n - 1], counts[n - 1])
  }

  lemma {:induction false} TimeoutsOfAppend(firsts: seq<nat>, counts: seq<nat>, first: nat, count: nat)
    requires |counts| == |firsts|
    ensures TimeoutsOf(firsts + [first], counts + [count]) == TimeoutsOf(firsts, counts) + WaitFirst(first, count)
  {
    var n := |firsts| + 1;
    assert (firsts + [first])[..n - 1] == firsts;
    assert (counts + [count])[..n - 1] == counts;
  }

  /** `starts[c]` is the index of the first read of cycle `c` when cycle `c` performs `counts[c]` reads. */
  predicate Starts(starts: seq<nat>, counts: seq<nat>)
  {
    |starts| == |counts| + 1 && starts[0] == 0 &&
    forall c | 0 <= c < |counts| :: starts[c + 1] == starts[c] + counts[c]
  }

  /**
   * In the timeouts of all reads, the first read of cycle `c` waits
   * `firsts[c]` and every other read of that cycle does not wait.
   */
  lemma {:induction false} TimeoutsOfShape(firsts: seq<nat>, counts: seq<nat>, starts: seq<nat>)
    requires |counts| == |firsts| && Starts(starts, counts)
    ensures |TimeoutsOf(firsts, counts)| == starts[|counts|]
    ensures forall c | 0 <= c <= |counts| :: starts[c] <= starts[|counts|]
    ensures forall c | 0 <= c < |counts| && starts[c] < starts[c + 1] :: TimeoutsOf(firsts, counts)[starts[c]] == firsts[c]
    ensures forall c, k | 0 <= c < |counts| && starts[c] < k < starts[c + 1] :: TimeoutsOf(firsts, counts)[k] == 0
  {
    if firsts != [] {
      var n := |firsts|;
      var fs, cs, ss := firsts[..n - 1], counts[..n - 1], starts[..n];
      assert Starts(ss, cs);
      TimeoutsOfShape(fs, cs, ss);
      WaitFirstShape(firsts[n - 1], counts[n - 1]);
      var t := TimeoutsOf(firsts, counts);
      forall c | 0 <= c <= n ensures starts[c] <= starts[n] {
        if c < n {
          assert ss[c] <= ss[n - 1];
        }
      }
      assert t == TimeoutsOf(fs, cs) + WaitFirst(firsts[n - 1], counts[n - 1]);
      forall c | 0 <= c < n && starts[c] < starts[c + 1]
        ensures t[starts[c]] == firsts[c]
      {
        if c < n - 1 {
          assert ss[c] == starts[c] && ss[c + 1] == starts[c + 1] && fs[c] == firsts[c] && cs[c] == counts[c];
        }
      }
      forall c, k | 0 <= c < n && starts[c] < k < starts[c + 1]
        ensures t[k] == 0
      {
        if c < n - 1 {
          assert ss[c] == starts[c] && ss[c + 1] == starts[c + 1];
        }
      }
    }
  }

  /** The number of reports delivered after the first `ri` read results. */
  function DeliveredCount(results: seq<ReadResult>, ri: nat): nat
    requires ri <= |results|
  {
    |DropRepeats(ReportsOf(results, ri))|
  }

  /** Whether the reads `from` up to `to` delivered a report. */
  predicate DeliveredBetween(results: seq<ReadResult>, from: nat, to: nat)
    requires from <= to <= |results|
  {
    DeliveredCount(results, from) < DeliveredCount(results, to)
  }

  /** The events of handled commands, in order: every event but reports, read errors and state changes. */
  function CommandEventsOf(events: seq<Event>): seq<Event>
  {
    if events == [] then []
    else
      var last := events[|events| - 1];
      CommandEventsOf(events[..|events| - 1]) +
        (if last.ReportRead? || last.ReportReadError? || last.StateChanged? then [] else [last])
  }

  /** How the event views change when one event is appended. */
  lemma EventsAppend(events: seq<Event>, e: Event)
    ensures DeliveredOf(events + [e]) == DeliveredOf(events) + (if e.ReportRead? then [e.data] else [])
    ensures ErrorEventsOf(events + [e]) == ErrorEventsOf(events) + (if e.ReportReadError? then [e.readErr] else [])
    ensures CommandEventsOf(events + [e]) ==
              CommandEventsOf(events) + (if e.ReportRead? || e.ReportReadError? || e.StateChanged? then [] else [e])
  {
    assert (events + [e])[..|events|] == events;
  }

  /** Commands of the cycles in `cycles[..n]` are well-formed. */
  predicate ValidCommands(cycles: seq<Cycle>, n: nat)
    requires n <= |cycles|
  {
    forall c | 0 <= c < n :: cycles[c].received.Received? ==> ValidCommand(cycles[c].received.command)
  }

  /** The device calls made by the commands received in the first `n` cycles, in order. */
  function CallsOf(cycles: seq<Cycle>, n: nat): seq<DeviceCall>
    requires n <= |cycles| && ValidCommands(cycles, n)
  {
    if n == 0 then []
    else
      var cycle := cycles[n - 1];
      CallsOf(cycles, n - 1) +
        (if cycle.received.Received? then
           var call := HandleCommand(cycle.received.command, cycle.now, cycle.answer).0;
           if call.Some? then [call.value] else []
         else [])
  }

  /** The events of the commands received in the first `n` cycles, in order. */
  function HandledEventsOf(cycles: seq<Cycle>, n: nat): seq<Event>
    requires n <= |cycles| && ValidCommands(cycles, n)
  {
    if n == 0 then []
    else
      var cycle := cycles[n - 1];
      HandledEventsOf(cycles, n - 1) +
        (if cycle.received.Received? then
           var event := HandleCommand(cycle.received.command, cycle.now, cycle.answer).1;
           if event.Some? then [event.value] else []
         else [])
  }

  /**
   * The reads of the cycles run so far: cycle `c` performs
   * `readCounts[c]` reads, starting with read `readStarts[c]`; its first
   * read waits `firstTimeouts[c]` and every later read does not wait;
   * `lastStarts[c]` is the start of the last earlier cycle that
   * delivered a report, or the thread's start if none did.
   */
  datatype ReadLog = ReadLog(timeouts: seq<nat>, readCounts: seq<nat>, readStarts: seq<nat>,
                             firstTimeouts: seq<nat>, lastStarts: seq<Instant>)

  /** The reads of the first `n` cycles and their timeouts: only the first read of a cycle waits. */
  predicate LogReads(results: seq<ReadResult>, n: nat, log: ReadLog)
  {
    && |log.readCounts| == n && Starts(log.readStarts, log.readCounts)
    && (forall c | 0 <= c <= n :: log.readStarts[c] <= log.readStarts[n]) && log.readStarts[n] <= |results|
    && |log.firstTimeouts| == n && log.timeouts == TimeoutsOf(log.firstTimeouts, log.readCounts)
  }

  /** Each of the first `n` cycles read until no report was pending. */
  predicate LogDrained(results: seq<ReadResult>, n: nat, log: ReadLog)
    requires |log.readStarts| == n + 1
  {
    forall c | 0 <= c < n :: Drained(results, log.readStarts[c], log.readStarts[c + 1])
  }

  /**
   * The first read of each of the first `n` cycles waits what is left of
   * the first-read budget since the last cycle that delivered a report.
   */
  predicate LogStarts(cycles: seq<Cycle>, results: seq<ReadResult>, start: Instant, n: nat, log: ReadLog)
    requires n <= |cycles| && LogReads(results, n, log)
  {
    && |log.lastStarts| == n + 1 && log.lastStarts[0] == start
    && (forall c | 0 <= c < n ::
          log.lastStarts[c].nanos <= cycles[c].readCycleStarted.nanos &&
          log.firstTimeouts[c] == FirstReadTimeout(cycles[c].readCycleStarted.nanos - log.lastStarts[c].nanos))
    && (forall c | 0 <= c < n ::
          log.lastStarts[c + 1] ==
            if DeliveredBetween(results, log.readStarts[c], log.readStarts[c + 1])
            then cycles[c].readCycleStarted else log.lastStarts[c])
  }

  /** The log of the first `n` cycles. */
  predicate ValidLog(cycles: seq<Cycle>, results: seq<ReadResult>, start: Instant, n: nat, log: ReadLog)
    requires n <= |cycles|
  {
    LogReads(results, n, log) && LogStarts(cycles, results, start, n, log)
  }

  lemma {:induction false} StartsAppend(readCounts: seq<nat>, readStarts: seq<nat>, end: nat)
    requires Starts(readStarts, readCounts) && readStarts[|readCounts|] <= end
    requires forall c | 0 <= c <= |readCounts| :: readStarts[c] <= readStarts[|readCounts|]
    ensures var n := |readCounts|;
            Starts(readStarts + [end], readCounts + [end - readStarts[n]]) &&
            forall c | 0 <= c <= n + 1 :: (readStarts + [end])[c] <= end
  {
    var n := |readCounts|;
    var counts, starts := readCounts + [end - readStarts[n]], readStarts + [end];
    forall c | 0 <= c < |counts| ensures starts[c + 1] == starts[c] + counts[c] {
      if c < n {
        assert starts[c + 1] == readStarts[c + 1] && starts[c] == readStarts[c] && counts[c] == readCounts[c];
      }
    }
    forall c | 0 <= c <= n + 1 ensures starts[c] <= end {
      if c <= n {
        assert starts[c] == readStarts[c];
      }
    }
  }

  /** The log with one more cycle that waited `first` and read up to `end`. */
  function Extend(log: ReadLog, first: nat, end: nat, lastStart: Instant): ReadLog
    requires log.readStarts != [] && log.readStarts[|log.readStarts| - 1] <= end
  {
    var count := end - log.readStarts[|log.readStarts| - 1];
    ReadLog(log.timeouts + WaitFirst(first, count), log.readCounts + [count], log.readStarts + [end],
            log.firstTimeouts + [first], log.lastStarts + [lastStart])
  }

  /** A drained cycle appended to a drained log gives a drained log. */
  lemma {:induction false} LogDrainedAppend(results: seq<ReadResult>, n: nat, log0: ReadLog, log: ReadLog)
    requires |log0.readStarts| == n + 1 && LogDrained(results, n, log0)
    requires |log.readStarts| == n + 2 && log.readStarts[..n + 1] == log0.readStarts
    requires Drained(results, log.readStarts[n], log.readStarts[n + 1])
    ensures LogDrained(results, n + 1, log)
  {
    forall c | 0 <= c < n + 1 ensures Drained(results, log.readStarts[c], log.readStarts[c + 1]) {
      if c < n {
        assert log.readStarts[c] == log0.readStarts[c] && log.readStarts[c + 1] == log0.readStarts[c + 1];
      }
    }
  }

  /** One more cycle, reading up to `end`, extends the reads of the log. */
  lemma {:induction false} LogReadsAppend(results: seq<ReadResult>, n: nat, log: ReadLog, first: nat, end: nat, lastStart: Instant)
    requires LogReads(results, n, log) && log.readStarts[n] <= end <= |results|
    ensures LogReads(results, n + 1, Extend(log, first, end, lastStart))
  {
    TimeoutsOfAppend(log.firstTimeouts, log.readCounts, first, end - log.readStarts[n]);
    StartsAppend(log.readCounts, log.readStarts, end);
  }

  /** The cycle-start part of the log for one more cycle. */
  lemma {:induction false} LastStartsAppend(cycles: seq<Cycle>, results: seq<ReadResult>, n: nat,
                                            counts: seq<nat>, starts: seq<nat>, firsts: seq<nat>, lasts: seq<Instant>)
    requires n < |cycles| && |counts| == n + 1 && Starts(starts, counts) && |firsts| == n + 1 && |lasts| == n + 2
    requires forall c | 0 <= c < n + 2 :: starts[c] <= |results|
    requires forall c | 0 <= c < n ::
               lasts[c].nanos <= cycles[c].readCycleStarted.nanos &&
               firsts[c] == FirstReadTimeout(cycles[c].readCycleStarted.nanos - lasts[c].nanos)
    requires forall c | 0 <= c < n ::
               lasts[c + 1] ==
                 if DeliveredBetween(results, starts[c], starts[c + 1]) then cycles[c].readCycleStarted else lasts[c]
    requires lasts[n].nanos <= cycles[n].readCycleStarted.nanos
    requires firsts[n] == FirstReadTimeout(cycles[n].readCycleStarted.nanos - lasts[n].nanos)
    requires lasts[n + 1] ==
               if DeliveredBetween(results, starts[n], starts[n + 1]) then cycles[n].readCycleStarted else lasts[n]
    ensures forall c | 0 <= c < n + 1 ::
              lasts[c].nanos <= cycles[c].readCycleStarted.nanos &&
              firsts[c] == FirstReadTimeout(cycles[c].readCycleStarted.nanos - lasts[c].nanos)
    ensures forall c | 0 <= c < n + 1 ::
              lasts[c + 1] ==
                if DeliveredBetween(results, starts[c], starts[c + 1]) then cycles[c].readCycleStarted else lasts[c]
  {
  }

  /** One more cycle, reading up to `end`, extends the cycle starts of the log. */
  lemma {:induction false} LogStartsAppend(cycles: seq<Cycle>, results: seq<ReadResult>, start: Instant, n: nat,
                                           log: ReadLog, first: nat, end: nat, lastStart: Instant)
    requires n < |cycles| && ValidLog(cycles, results, start, n, log)
    requires log.lastStarts[n].nanos <= cycles[n].readCycleStarted.nanos
    requires first == FirstReadTimeout(cycles[n].readCycleStarted.nanos - log.lastStarts[n].nanos)
    requires log.readStarts[n] <= end <= |results|
    requires lastStart ==
               if DeliveredBetween(results, log.readStarts[n], end) then cycles[n].readCycleStarted else log.lastStarts[n]
    ensures LogReads(results, n + 1, Extend(log, first, end, lastStart))
    ensures LogStarts(cycles, results, start, n + 1, Extend(log, first, end, lastStart))
  {
    LogReadsAppend(results, n, log, first, end, lastStart);
    var log' := Extend(log, first, end, lastStart);
    assert forall c | 0 <= c <= n :: log'.readStarts[c] == log.readStarts[c] && log'.lastStarts[c] == log.lastStarts[c];
    assert forall c | 0 <= c < n :: log'.firstTimeouts[c] == log.firstTimeouts[c];
    LastStartsAppend(cycles, results, n, log'.readCounts, log'.readStarts, log'.firstTimeouts, log'.lastStarts);
  }

  /**
   * The reads of cycle `ci`: with the double buffer as left by the
   * earlier cycles, reads until no report is pending, the first read
   * waiting what is left of the first-read budget.
   */
  method ReadPhase(cycles: seq<Cycle>, results: seq<ReadResult>, start: Instant, ci: nat,
                   reader0: Reader, events0: seq<Event>, log0: ReadLog)
    returns (reader: Reader, events: seq<Event>, log: ReadLog)
    requires ci < |cycles| && ValidLog(cycles, results, start, ci, log0)
    requires ReaderValid(reader0, results, log0.readStarts[ci]) && Accounted(events0, results, log0.readStarts[ci])
    requires log0.lastStarts[ci] == reader0.lastReadCycleStarted
    requires reader0.lastReadCycleStarted.nanos <= cycles[ci].readCycleStarted.nanos
    requires LogDrained(results, ci, log0)
    ensures ValidLog(cycles, results, start, ci + 1, log) && LogDrained(results, ci + 1, log)
    ensures ReaderValid(reader, results, log.readStarts[ci + 1]) && Accounted(events, results, log.readStarts[ci + 1])
    ensures log.lastStarts[ci + 1] == reader.lastReadCycleStarted
    ensures reader.lastReadCycleStarted == reader0.lastReadCycleStarted ||
            reader.lastReadCycleStarted == cycles[ci].readCycleStarted
    ensures CommandEventsOf(events) == CommandEventsOf(events0)
  {
    var cycle := cycles[ci];
    var elapsed := cycle.readCycleStarted.nanos - reader0.lastReadCycleStarted.nanos;
    var first := FirstReadTimeout(elapsed);
    var ri1, cycleTimeouts;
    ri1, reader, events, cycleTimeouts := ReadCycle(results, log0.readStarts[ci], reader0, events0, first, cycle.readCycleStarted);
    LogStartsAppend(cycles, results, start, ci, log0, first, ri1, reader.lastReadCycleStarted);
    log := Extend(log0, first, ri1, reader.lastReadCycleStarted);
    LogDrainedAppend(results, ci, log0, log);
  }

  /**
   * In a valid log, the first read of cycle `c` waits what is left of
   * the first-read budget since the start of the last cycle that
   * delivered a report, and every later read of the cycle does not wait.
   */
  lemma LogTimeouts(cycles: seq<Cycle>, results: seq<ReadResult>, start: Instant, n: nat, log: ReadLog)
    requires n <= |cycles| && ValidLog(cycles, results, start, n, log)
    ensures |log.timeouts| == log.readStarts[n]
    ensures forall c | 0 <= c < n && log.readStarts[c] < log.readStarts[c + 1] ::
              log.timeouts[log.readStarts[c]] ==
                FirstReadTimeout(cycles[c].readCycleStarted.nanos - log.lastStarts[c].nanos)
    ensures forall c, k | 0 <= c < n && log.readStarts[c] < k < log.readStarts[c + 1] :: log.timeouts[k] == 0
  {
    TimeoutsOfShape(log.firstTimeouts, log.readCounts, log.readStarts);
  }

  /**
   * The command of cycle `ci`, if one was received, handed to
   * `handle_command`: a `Terminate` stops the thread, any other command
   * makes its device call and reports its event.
   */
  method CommandPhase(cycles: seq<Cycle>, results: seq<ReadResult>, ci: nat, ri: nat,
                      events0: seq<Event>, calls0: seq<DeviceCall>)
    returns (events: seq<Event>, calls: seq<DeviceCall>, terminate: bool)
    requires ci < |cycles| && ValidCommands(cycles, ci + 1) && !cycles[ci].received.ChannelDisconnected?
    requires ri <= |results| && Accounted(events0, results, ri)
    requires calls0 == CallsOf(cycles, ci) && CommandEventsOf(events0) == HandledEventsOf(cycles, ci)
    ensures terminate <==> cycles[ci].received.Received? && cycles[ci].received.command.Terminate?
    ensures terminate ==> events == events0 && calls == calls0
    ensures !terminate ==>
              Accounted(events, results, ri) &&
              calls == CallsOf(cycles, ci + 1) && CommandEventsOf(events) == HandledEventsOf(cycles, ci + 1)
  {
    events, calls, terminate := events0, calls0, false;
    var cycle := cycles[ci];
    if cycle.received.Received? {
      var (call, event) := HandleCommand(cycle.received.command, cycle.now, cycle.answer);
      if event.None? {
        // Received a termination command
        return events, calls, true;
      }
      if call.Some? {
        calls := calls + [call.value];
      }
      AccountedOther(events, event.value, results, ri);
      EventsAppend(events, event.value);
      events := events + [event.value];
    }
  }

  /**
   * `thread_fn`: runs cycles until the command channel is disconnected,
   * a `Terminate` arrives or the given cycles run out, then announces
   * termination. Cycle `c` hands its command, if one was received, to
   * `handle_command` and then performs the reads `readStarts[c]` up to
   * `readStarts[c + 1]`, until no report is pending. Only the first read
   * of a cycle may wait, for `firstTimeouts[c]`: what is left of the
   * first-read budget since `lastStarts[c]`, the start of the last cycle
   * that delivered a report. When the given read results run out, no
   * further report is pending.
   */
  method ThreadFn(cycles: seq<Cycle>, results: seq<ReadResult>, start: Instant)
    returns (events: seq<Event>, calls: seq<DeviceCall>, cyclesRun: nat, readsDone: nat, log: ReadLog)
    requires ValidCycles(cycles, start)
    requires ValidReads(results)
    ensures events != [] && events[|events| - 1] == StateChanged(Terminating)
    ensures cyclesRun <= |cycles| && readsDone <= |results|
    ensures forall c | 0 <= c < cyclesRun ::
              !cycles[c].received.ChannelDisconnected? &&
              (cycles[c].received.Received? ==> !cycles[c].received.command.Terminate?)
    ensures cyclesRun < |cycles| ==>
              cycles[cyclesRun].received.ChannelDisconnected? ||
              (cycles[cyclesRun].received.Received? && cycles[cyclesRun].received.command.Terminate?)
    ensures ValidCommands(cycles, cyclesRun)
    ensures calls == CallsOf(cycles, cyclesRun)
    ensures CommandEventsOf(events) == HandledEventsOf(cycles, cyclesRun)
    ensures DeliveredOf(events) == DropRepeats(ReportsOf(results, readsDone))
    ensures ErrorEventsOf(events) == ReadErrorsOf(results, readsDone)
    ensures ValidLog(cycles, results, start, cyclesRun, log) && log.readStarts[cyclesRun] == readsDone
    ensures LogDrained(results, cyclesRun, log)
  {
    var reader := Reader([[], []], 0, start);
    var ci := 0;
    events, calls := [], [];
    log := ReadLog([], [], [0], [], [start]);
    while ci < |cycles|
      invariant ci <= |cycles| && ValidLog(cycles, results, start, ci, log) && LogDrained(results, ci, log)
      invariant ReaderValid(reader, results, log.readStarts[ci]) && Accounted(events, results, log.readStarts[ci])
      invariant log.lastStarts[ci] == reader.lastReadCycleStarted
      invariant forall c | ci <= c < |cycles| :: reader.lastReadCycleStarted.nanos <= cycles[c].readCycleStarted.nanos
      invariant forall c | 0 <= c < ci ::
                  !cycles[c].received.ChannelDisconnected? &&
                  (cycles[c].received.Received? ==> !cycles[c].received.command.Terminate?)
      invariant ValidCommands(cycles, ci)
      invariant calls == CallsOf(cycles, ci)
      invariant CommandEventsOf(events) == HandledEventsOf(cycles, ci)
      decreases |cycles| - ci
    {
      if cycles[ci].received.ChannelDisconnected? {
        break;
      }
      var terminate;
      events, calls, terminate := CommandPhase(cycles, results, ci, log.readStarts[ci], events, calls);
      if terminate {
        break;
      }
      reader, events, log := ReadPhase(cycles, results, start, ci, reader, events, log);
      ci := ci + 1;
    }
    cyclesRun := ci;
    readsDone := log.readStarts[ci];
    AccountedOther(events, StateChanged(Terminating), results, readsDone);
    EventsAppend(events, StateChanged(Terminating));
    events := events + [StateChanged(Terminating)];
  }
}
