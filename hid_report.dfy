/**
 * Recycling of HID report buffers: one stack of spare buffers per report
 * id, where a buffer's report id is its first byte.
 */
module HidReport {
  import opened Common

  type Buffer = seq<Byte>

  const REPORT_ID_COUNT: nat := 256

  class BufferRecycler {
    /** One stack per report id; the top of a stack is its last element. */
    var recycled: seq<seq<Buffer>>

    /** One slot per report id, holding only buffers that start with that id. */
    predicate Valid()
      reads this
    {
      && |recycled| == REPORT_ID_COUNT
      && forall id, k | 0 <= id < REPORT_ID_COUNT && 0 <= k < |recycled[id]| ::
           |recycled[id][k]| > 0 && recycled[id][k][0] == id
    }

    /** `BufferRecycler::new`: 256 empty slots. */
    constructor ()
      ensures Valid()
      ensures forall id | 0 <= id < REPORT_ID_COUNT :: recycled[id] == []
    {
      recycled := seq(REPORT_ID_COUNT, _ => []);
    }

    /** `try_fetch_buf`: pops the most recently recycled buffer of a report id. */
    method TryFetchBuf(reportId: Byte) returns (r: Option<Buffer>)
      requires Valid()
      modifies this
      ensures Valid()
      ensures r.None? <==> old(recycled[reportId]) == []
      ensures r.None? ==> recycled == old(recycled)
      ensures r.Some? ==>
                var slot := old(recycled[reportId]);
                r.value == slot[|slot| - 1] &&
                recycled == old(recycled)[reportId := slot[..|slot| - 1]]
    {
      var slot := recycled[reportId];
      if slot == [] {
        return None;
      }
      r := Some(slot[|slot| - 1]);
      recycled := recycled[reportId := slot[..|slot| - 1]];
    }

    /**
     * `fill_buf`: a buffer holding exactly `data`, made from the most
     * recently recycled buffer of the report id `data[0]` when there is
     * one, which is truncated or extended to the length of `data`.
     */
    method FillBuf(data: Buffer) returns (buf: Buffer)
      requires Valid()
      requires |data| > 0
      modifies this
      ensures Valid()
      ensures buf == data
      ensures var slot := old(recycled[data[0]]);
              recycled == old(recycled)[data[0] := if slot == [] then [] else slot[..|slot| - 1]]
    {
      var reportId := data[0];
      var fetched := TryFetchBuf(reportId);
      match fetched
      case Some(reused) =>
        assert reused[0] == reportId;
        var oldLen, newLen := |reused|, |data|;
        if newLen <= oldLen {
          buf := reused[..newLen];
          buf := data;
        } else {
          buf := data[..oldLen];
          buf := buf + data[oldLen..];
        }
      case None =>
        buf := data;
    }

    /** `recycle_buf`: pushes the buffer onto the slot of its report id. */
    method RecycleBuf(buffer: Buffer)
      requires Valid()
      requires |buffer| > 0
      modifies this
      ensures Valid()
      ensures recycled == old(recycled)[buffer[0] := old(recycled[buffer[0]]) + [buffer]]
    {
      var reportId := buffer[0];
      recycled := recycled[reportId := recycled[reportId] + [buffer]];
    }
  }

  /** Slots are last in, first out: a recycled buffer is the next one fetched. */
  method RecycleThenFetch(r: BufferRecycler, buffer: Buffer) returns (fetched: Option<Buffer>)
    requires r.Valid() && |buffer| > 0
    modifies r
    ensures r.Valid()
    ensures fetched == Some(buffer) && r.recycled == old(r.recycled)
  {
    r.RecycleBuf(buffer);
    fetched := r.TryFetchBuf(buffer[0]);
    assert r.recycled[buffer[0]] == old(r.recycled[buffer[0]]);
  }
}
