/** The writer task's `write_conn`: src/runtime/mod.rs. */
module Writer {
  import opened Bytes
  import opened Frames
  import opened Padding

  function Max0(n: int): nat { if n > 0 then n else 0 }

  function WasteFrame(n: nat): Frame { Frame(Command.Waste, 0, Zeros(n)) }

  /** A padding frame as `write_conn` lays it out: the length field is cast to 16 bits. */
  function WasteBytes(n: nat): (s: seq<Byte>)
    ensures |s| == HEADER_SIZE + n
  {
    Encode(WasteFrame(n))
  }

  /** The padding behind `left` payload bytes that finish in a record of size `size`. */
  function Filler(left: nat, size: nat): (s: seq<Byte>)
  {
    if left + HEADER_SIZE < size then WasteBytes(size - left - HEADER_SIZE) else []
  }

  /** Records written under a size list, and the payload left over. */
  datatype Burst = Burst(records: seq<seq<Byte>>, rest: seq<Byte>)

  /** The meaning of the loop over record sizes. */
  function Shape(bytes: seq<Byte>, sizes: seq<int>): Burst
    decreases |sizes|
  {
    if sizes == [] then Burst([], bytes)
    else if sizes[0] == CHECK_MARK then
      if bytes == [] then Burst([], []) else Shape(bytes, sizes[1..])
    else
      var size := Max0(sizes[0]);
      if |bytes| > size then Push(bytes[..size], Shape(bytes[size..], sizes[1..]))
      else if bytes != [] then Push(bytes + Filler(|bytes|, size), Shape([], sizes[1..]))
      else Push(WasteBytes(size), Shape([], sizes[1..]))
  }

  function Push(record: seq<Byte>, burst: Burst): Burst
  {
    burst.(records := [record] + burst.records)
  }

  /** The fields of `WriterRuntimeState`. */
  datatype State = State(sendPadding: bool, buffering: bool, buffer: seq<Byte>, counter: U32) {
    /** While padding is on, the counter has room: `counter += 1` cannot overflow. */
    predicate Valid() { sendPadding ==> counter < 0xffff_ffff }
  }

  function Fresh(isClient: bool): State { State(isClient, false, [], 0) }

  /** What one `write_conn` call does under a scheme that stops at packet `stop` and, if it is
      asked, draws `sizes`: the new state and the records written. */
  function WriteConn(ws: State, bytes: seq<Byte>, stop: U32, sizes: seq<int>): (State, seq<seq<Byte>>)
    requires ws.Valid()
  {
    if ws.buffering then (ws.(buffer := ws.buffer + bytes), [])
    else
      var payload := ws.buffer + bytes;
      var ws' := ws.(buffer := []);
      if !ws.sendPadding then (ws', [payload])
      else if ws.counter + 1 < stop then
        var burst := Shape(payload, sizes);
        (ws'.(counter := ws.counter + 1), burst.records + if burst.rest == [] then [] else [burst.rest])
      else (ws'.(counter := ws.counter + 1, sendPadding := false), [payload])
  }

  class WriterRuntimeState {
    var sendPadding: bool
    var buffering: bool
    var buffer: seq<Byte>
    var pktCounter: U32

    ghost function View(): State
      reads this
    {
      State(sendPadding, buffering, buffer, pktCounter)
    }

    constructor (isClient: bool)
      ensures View() == Fresh(isClient) && View().Valid()
    {
      sendPadding, buffering, buffer, pktCounter := isClient, false, [], 0;
    }

    method SetBuffering(enabled: bool)
      modifies this
      ensures View() == old(View()).(buffering := enabled)
    {
      buffering := enabled;
    }

    /** `write_conn` on a connection whose writes succeed; `records` are its `write_all` calls. */
    method Write(frame: seq<Byte>, factory: Factory) returns (records: seq<seq<Byte>>, sizes: seq<int>)
      requires View().Valid()
      modifies this
      ensures var before := old(View());
              before.sendPadding && !before.buffering && before.counter + 1 < factory.stop ==>
                Draws(Items(factory.scheme, before.counter + 1), sizes)
      ensures (View(), records) == WriteConn(old(View()), frame, factory.stop, sizes)
      ensures View().Valid()
    {
      records, sizes := [], [];
      if buffering {
        buffer := buffer + frame;
        return;
      }

      var bytes := buffer + frame;
      buffer := [];
      if sendPadding {
        pktCounter := pktCounter + 1;
        if pktCounter < factory.stop {
          sizes := GenerateRecordPayloadSizes(factory, pktCounter);
          bytes, records := WriteSizes(bytes, sizes);
          if bytes == [] {
            assert records + [] == records;
            return;
          }
        } else {
          sendPadding := false;
        }
      }
      assert [] + [bytes] == [bytes];
      records := records + [bytes];
    }
  }

  /** The loop over the drawn sizes: splits off records, pads the last one, and pads on. */
  method WriteSizes(payload: seq<Byte>, sizes: seq<int>) returns (bytes: seq<Byte>, records: seq<seq<Byte>>)
    ensures Burst(records, bytes) == Shape(payload, sizes)
  {
    bytes, records := payload, [];
    var i := 0;
    while i < |sizes|
      invariant 0 <= i <= |sizes|
      invariant Shape(bytes, sizes[i..]).rest == Shape(payload, sizes).rest
      invariant records + Shape(bytes, sizes[i..]).records == Shape(payload, sizes).records
    {
      ghost var todo := sizes[i..];
      assert todo[1..] == sizes[i + 1..];
      var spec := sizes[i];
      i := i + 1;
      if spec == CHECK_MARK {
        if bytes == [] {
          break;
        }
      } else {
        var size := Max0(spec);
        if |bytes| > size {
          records, bytes := AppendRecord(records, bytes[..size], Shape(bytes[size..], todo[1..]).records), bytes[size..];
        } else if bytes != [] {
          records := AppendRecord(records, bytes + Filler(|bytes|, size), Shape([], todo[1..]).records);
          bytes := [];
        } else {
          records := AppendRecord(records, WasteBytes(size), Shape([], todo[1..]).records);
        }
      }
    }
  }

  function AppendRecord(records: seq<seq<Byte>>, record: seq<Byte>, ghost later: seq<seq<Byte>>): (r: seq<seq<Byte>>)
    ensures r == records + [record]
    ensures records + ([record] + later) == r + later
  {
    Assoc(records, [record], later);
    records + [record]
  }
}
