/** Reassembly of frames from arbitrary reads: `recv_loop` in src/proxy/session/inner.rs. */
module Receiver {
  import opened Bytes
  import opened Options
  import opened Frames

  /** The outcome of handling frames: go on, or stop with the state reached. */
  datatype Progress<S> = Running(state: S) | Failed(state: S)

  /** Handling a list of frames in order, up to the first failure. */
  function Feed<S>(handle: (S, Frame) -> Progress<S>, s: S, fs: seq<Frame>): Progress<S>
  {
    if fs == [] then Running(s)
    else
      match handle(s, fs[0])
      case Failed(end) => Failed(end)
      case Running(next) => Feed(handle, next, fs[1..])
  }

  lemma {:induction false} FeedConcat<S>(handle: (S, Frame) -> Progress<S>, s: S, a: seq<Frame>, b: seq<Frame>)
    ensures Feed(handle, s, a + b)
         == match Feed(handle, s, a)
            case Failed(end) => Failed(end)
            case Running(next) => Feed(handle, next, b)
  {
    if a == [] {
      assert a + b == b;
    } else {
      assert (a + b)[1..] == a[1..] + b;
      if handle(s, a[0]).Running? {
        FeedConcat(handle, handle(s, a[0]).state, a[1..], b);
      }
    }
  }

  /** The reads up to end of file, which shows as a read of no bytes. */
  function UntilEof(chunks: seq<seq<Byte>>): seq<seq<Byte>>
  {
    if chunks == [] || chunks[0] == [] then [] else [chunks[0]] + UntilEof(chunks[1..])
  }

  /** `recv_loop` over the given reads: whatever their boundaries, the frames handled are those
      of the bytes received, and what stays pending is their unparsed tail. */
  method RecvLoop<S>(handle: (S, Frame) -> Progress<S>, start: S, chunks: seq<seq<Byte>>)
    returns (out: Progress<S>, pending: seq<Byte>)
    ensures out == Feed(handle, start, Parsed(Flat(UntilEof(chunks))))
    ensures out.Running? ==> pending == Tail(Flat(UntilEof(chunks)))
  {
    var state := start;
    pending := [];
    var i := 0;
    ghost var received: seq<Byte> := [];
    assert Flat([]) == [] && Decode([]) == None;
    while i < |chunks|
      invariant 0 <= i <= |chunks|
      invariant received + Flat(UntilEof(chunks[i..])) == Flat(UntilEof(chunks))
      invariant Feed(handle, start, Parsed(received)) == Running(state)
      invariant pending == Tail(received)
    {
      ghost var later := Flat(UntilEof(chunks[i + 1..]));
      assert chunks[i..][1..] == chunks[i + 1..];
      if chunks[i] == [] {
        assert received + [] == received;
        return Running(state), pending;
      }
      UntilEofStep(chunks[i..]);
      Assoc(received, chunks[i], later);
      ArrivalStep(handle, start, received, chunks[i]);
      pending := pending + chunks[i];
      received := received + chunks[i];
      out, pending := HandlePending(handle, state, pending);
      if out.Failed? {
        ParseSplit(received, later);
        FeedConcat(handle, start, Parsed(received), Parsed(Tail(received) + later));
        return;
      }
      state := out.state;
      i := i + 1;
    }
    assert received + [] == received;
    out := Running(state);
  }

  lemma UntilEofStep(chunks: seq<seq<Byte>>)
    requires chunks != [] && chunks[0] != []
    ensures Flat(UntilEof(chunks)) == chunks[0] + Flat(UntilEof(chunks[1..]))
  {
    assert UntilEof(chunks)[1..] == UntilEof(chunks[1..]);
  }

  lemma ArrivalStep<S>(handle: (S, Frame) -> Progress<S>, start: S, received: seq<Byte>, chunk: seq<Byte>)
    requires Feed(handle, start, Parsed(received)).Running?
    ensures var state := Feed(handle, start, Parsed(received)).state;
            Feed(handle, start, Parsed(received + chunk)) == Feed(handle, state, Parsed(Tail(received) + chunk))
    ensures Tail(received + chunk) == Tail(Tail(received) + chunk)
  {
    ParseSplit(received, chunk);
    FeedConcat(handle, start, Parsed(received), Parsed(Tail(received) + chunk));
  }

  /** The inner loop: takes complete frames off the pending bytes. It ends because each frame
      takes at least its header. */
  method HandlePending<S>(handle: (S, Frame) -> Progress<S>, start: S, arrived: seq<Byte>)
    returns (out: Progress<S>, pending: seq<Byte>)
    ensures out == Feed(handle, start, Parsed(arrived))
    ensures out.Running? ==> pending == Tail(arrived)
  {
    pending := arrived;
    var state := start;
    var next := Decode(pending);
    while next.Some?
      invariant next == Decode(pending)
      invariant Feed(handle, state, Parsed(pending)) == Feed(handle, start, Parsed(arrived))
      invariant Tail(pending) == Tail(arrived)
      decreases |pending|
    {
      var frame := next.value;
      assert Parsed(pending)[1..] == Parsed(pending[HEADER_SIZE + |frame.data|..]);
      pending := pending[HEADER_SIZE + |frame.data|..];
      out := handle(state, frame);
      if out.Failed? {
        return;
      }
      state := out.state;
      next := Decode(pending);
    }
    out := Running(state);
  }
}
