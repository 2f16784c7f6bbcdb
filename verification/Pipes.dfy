/** The per-stream pipe: src/proxy/pipe/io_pipe.rs.

    Every lock section of the source is one step, so writers, the closing side and the single
    reader interleave freely between the four steps of a read. */
module Pipes {
  import opened Bytes
  import opened Options
  import opened Texts

  type Error = Text

  datatype PipeEvent = Data(bytes: seq<Byte>) | StreamEnd(error: Option<Error>)

  /** Where the reader stands inside `read` with a buffer of `room` bytes. It owns the channel's
      receiver while `Holding` and `Got`. */
  datatype Reader =
    | Idle
    | Checked(room: nat)
    | Holding(room: nat)
    | Got(room: nat, item: Option<PipeEvent>)

  datatype ReadResult = Ok(bytes: seq<Byte>) | Err(error: Error) | TimedOut

  /** The fields of `PipeInner`, the channel's queue, the reader's position, and what has been
      accepted and delivered so far; `endError` is what the end marker says. */
  datatype Pipe = Pipe(
    closed: bool,
    endQueued: bool,
    endError: Option<Error>,
    readError: Option<Error>,
    senderOpen: bool,
    queue: seq<PipeEvent>,
    buffer: seq<Byte>,
    reader: Reader,
    accepted: seq<Byte>,
    delivered: seq<Byte>,
    wroteEmpty: bool,
    closedLocally: bool)
  {
    /** Events sent but not yet dealt with: the one in the reader's hands, then the queue. */
    function Pending(): seq<PipeEvent>
    {
      (if reader.Got? && reader.item.Some? then [reader.item.value] else []) + queue
    }
  }

  function NewPipe(): Pipe
  {
    Pipe(false, false, None, None, true, [], [], Idle, [], [], false, false)
  }

  datatype PipeStep =
    | Write(data: seq<Byte>)
    | Finish(error: Option<Error>)
    | CloseLocally(error: Option<Error>)
    | Check(room: nat)
    | Take
    | Receive(deadline: bool)
    | Restore

  /** One reader: a read starts when none is under way. Receiving waits for an event, for the
      sender to be gone, or for the deadline. */
  predicate Enabled(p: Pipe, step: PipeStep)
  {
    match step
    case Write(_) => true
    case Finish(_) => true
    case CloseLocally(_) => true
    case Check(_) => p.reader.Idle?
    case Take => p.reader.Checked?
    case Receive(deadline) => p.reader.Holding? && (deadline || p.queue != [] || !p.senderOpen)
    case Restore => p.reader.Got?
  }

  /** Whether `PipeWriter::write` accepts data. */
  predicate Accepts(p: Pipe)
  {
    !p.closed && !p.endQueued && p.senderOpen
  }

  function Min(a: nat, b: nat): nat { if a < b then a else b }

  function Deliver(p: Pipe, bytes: seq<Byte>): Pipe
  {
    p.(delivered := p.delivered + bytes, reader := Idle)
  }

  function Apply(p: Pipe, step: PipeStep): Pipe
    requires Enabled(p, step)
  {
    match step
    case Write(data) =>
      if Accepts(p) then
        p.(queue := p.queue + [Data(data)], accepted := p.accepted + data, wroteEmpty := p.wroteEmpty || data == [])
      else p
    case Finish(error) =>
      if p.closed || p.endQueued then p
      else if p.senderOpen then p.(endQueued := true, endError := error, queue := p.queue + [StreamEnd(error)])
      else p.(endQueued := true, closed := true)
    case CloseLocally(error) =>
      p.(readError := error, closed := true, senderOpen := false, closedLocally := true)
    case Check(room) =>
      if p.buffer != [] then
        var len := Min(|p.buffer|, room);
        Deliver(p, p.buffer[..len]).(buffer := p.buffer[len..])
      else if p.closed && !p.senderOpen then p.(readError := None)
      else p.(reader := Checked(room))
    case Take => p.(reader := Holding(p.reader.room))
    case Receive(deadline) =>
      if deadline || p.queue == [] then p.(reader := Got(p.reader.room, None))
      else p.(reader := Got(p.reader.room, Some(p.queue[0])), queue := p.queue[1..])
    case Restore =>
      match p.reader.item
      case Some(Data(bytes)) =>
        var len := Min(|bytes|, p.reader.room);
        Deliver(p, bytes[..len]).(buffer := p.buffer + bytes[len..])
      case Some(StreamEnd(_)) => p.(closed := true, senderOpen := false, reader := Idle)
      case None => p.(readError := None, reader := Idle)
  }

  /** What the step returns to the caller of `read`, if it ends the read. */
  function Result(p: Pipe, step: PipeStep): Option<ReadResult>
    requires Enabled(p, step)
  {
    match step
    case Check(room) =>
      if p.buffer != [] then Some(Ok(p.buffer[..Min(|p.buffer|, room)]))
      else if p.closed && !p.senderOpen then
        Some(if p.readError.Some? then Err(p.readError.value) else Ok([]))
      else None
    case Restore =>
      (match p.reader.item
       case Some(Data(bytes)) => Some(Ok(bytes[..Min(|bytes|, p.reader.room)]))
       case Some(StreamEnd(error)) => Some(if error.Some? then Err(error.value) else Ok([]))
       case None =>
         Some(if p.readError.Some? then Err(p.readError.value) else if !p.senderOpen then Ok([]) else TimedOut))
    case _ => None
  }

  // ---- What every reachable state keeps ----

  /** The data bytes of a list of events. */
  function BytesOf(events: seq<PipeEvent>): seq<Byte>
  {
    if events == [] then []
    else (if events[0].Data? then events[0].bytes else []) + BytesOf(events[1..])
  }

  lemma {:induction false} BytesOfConcat(a: seq<PipeEvent>, b: seq<PipeEvent>)
    ensures BytesOf(a + b) == BytesOf(a) + BytesOf(b)
  {
    if a == [] {
      assert a + b == b;
    } else {
      assert (a + b)[1..] == a[1..] + b;
      BytesOfConcat(a[1..], b);
    }
  }

  lemma BytesOfOne(e: PipeEvent)
    ensures BytesOf([e]) == if e.Data? then e.bytes else []
  {
    assert [e][1..] == [];
  }

  /** Nothing is lost, duplicated or reordered. */
  ghost predicate Conserved(p: Pipe)
  {
    p.delivered + (p.buffer + BytesOf(p.Pending())) == p.accepted
  }

  /** The end marker is unique and last, and stands for the end of the stream until it is consumed. */
  ghost predicate EndLast(p: Pipe)
  {
    var events := p.Pending();
    && (forall i :: 0 <= i < |events| && events[i].StreamEnd? ==>
          p.endQueued && i == |events| - 1 && events[i].error == p.endError)
    && (p.endQueued && !p.closedLocally && !p.closed ==> events != [] && events[|events| - 1].StreamEnd?)
    && (p.closed && !p.closedLocally ==> p.endQueued && events == [] && p.buffer == [] && p.reader.Idle?)
  }

  /** No empty piece of data is on its way unless one was written. */
  ghost predicate NoEmpty(p: Pipe)
  {
    !p.wroteEmpty ==> forall i :: 0 <= i < |p.Pending()| ==> p.Pending()[i] != Data([])
  }

  ghost predicate Inv(p: Pipe)
  {
    && p.senderOpen == !p.closed
    && (p.closedLocally ==> p.closed)
    && (p.readError.Some? ==> p.closedLocally)
    && (!p.reader.Idle? ==> p.buffer == [])
    && NoEmpty(p)
    && Conserved(p)
    && EndLast(p)
  }

  lemma InitialInv()
    ensures Inv(NewPipe())
  {
  }

  lemma AppendBack(a: seq<Byte>, b: seq<Byte>, c: seq<Byte>, more: seq<Byte>)
    ensures a + (b + (c + more)) == (a + (b + c)) + more
  {
  }

  lemma WriteKeeps(p: Pipe, data: seq<Byte>)
    requires Inv(p)
    ensures Inv(Apply(p, Write(data)))
  {
    if Accepts(p) {
      var q := Apply(p, Write(data));
      assert q.Pending() == p.Pending() + [Data(data)];
      BytesOfConcat(p.Pending(), [Data(data)]);
      BytesOfOne(Data(data));
      AppendBack(p.delivered, p.buffer, BytesOf(p.Pending()), data);
    }
  }

  lemma FinishConserves(p: Pipe, error: Option<Error>)
    requires Conserved(p) && p.senderOpen
    ensures Conserved(Apply(p, Finish(error)))
    ensures !p.closed && !p.endQueued ==> Apply(p, Finish(error)).Pending() == p.Pending() + [StreamEnd(error)]
  {
    if !p.closed && !p.endQueued {
      assert Apply(p, Finish(error)).Pending() == p.Pending() + [StreamEnd(error)];
      BytesOfConcat(p.Pending(), [StreamEnd(error)]);
      BytesOfOne(StreamEnd(error));
      assert BytesOf(p.Pending()) + [] == BytesOf(p.Pending());
    }
  }

  lemma FinishKeeps(p: Pipe, error: Option<Error>)
    requires Inv(p)
    ensures Inv(Apply(p, Finish(error)))
  {
    hide Conserved;
    if !p.closed && !p.endQueued {
      FinishConserves(p, error);
    }
  }

  lemma TakeFront(done: seq<Byte>, next: seq<Byte>, len: nat, later: seq<Byte>)
    requires len <= |next|
    ensures (done + next[..len]) + (next[len..] + later) == done + (next + later)
  {
  }

  lemma CheckKeeps(p: Pipe, room: nat)
    requires Inv(p) && p.reader.Idle?
    ensures Inv(Apply(p, Check(room)))
  {
    var q := Apply(p, Check(room));
    assert q.Pending() == p.Pending();
    if p.buffer != [] {
      var len := Min(|p.buffer|, room);
      TakeFront(p.delivered, p.buffer, len, BytesOf(p.Pending()));
    }
  }

  lemma ReceiveKeeps(p: Pipe, deadline: bool)
    requires Inv(p) && Enabled(p, Receive(deadline))
    ensures Inv(Apply(p, Receive(deadline)))
  {
    assert Apply(p, Receive(deadline)).Pending() == p.Pending();
  }

  lemma RestoreEvent(p: Pipe)
    requires Inv(p) && p.reader.Got? && p.reader.item.Some?
    ensures p.Pending() == [p.reader.item.value] + p.queue
    ensures Apply(p, Restore).Pending() == p.queue
    ensures Conserved(Apply(p, Restore))
  {
    var q := Apply(p, Restore);
    var e := p.reader.item.value;
    BytesOfConcat([e], p.queue);
    BytesOfOne(e);
    assert q.Pending() == p.queue;
    assert [] + BytesOf(p.Pending()) == BytesOf(p.Pending());
    if e.Data? {
      var len := Min(|e.bytes|, p.reader.room);
      TakeFront(p.delivered, e.bytes, len, BytesOf(p.queue));
      assert [] + e.bytes[len..] == e.bytes[len..];
    }
  }

  lemma RestoreEndLast(p: Pipe)
    requires EndLast(p) && p.reader.Got? && p.reader.item.Some? && p.buffer == [] && (p.closedLocally ==> p.closed)
    requires p.Pending() == [p.reader.item.value] + p.queue && Apply(p, Restore).Pending() == p.queue
    ensures EndLast(Apply(p, Restore))
  {
    hide Pipe.Pending;
    var q := Apply(p, Restore);
    var events := p.Pending();
    assert events[0] == p.reader.item.value;
    forall i | 0 <= i < |p.queue| && p.queue[i].StreamEnd?
      ensures q.endQueued && i == |p.queue| - 1 && p.queue[i].error == q.endError
    {
      assert events[i + 1].StreamEnd?;
    }
    if events[0].Data? && p.queue != [] {
      assert p.queue[|p.queue| - 1] == events[|events| - 1];
    }
  }

  lemma RestoreNoEmpty(p: Pipe)
    requires NoEmpty(p) && p.reader.Got? && p.reader.item.Some?
    requires p.Pending() == [p.reader.item.value] + p.queue && Apply(p, Restore).Pending() == p.queue
    ensures NoEmpty(Apply(p, Restore))
  {
    forall i | 0 <= i < |p.queue|
      ensures p.queue[i] == p.Pending()[i + 1]
    {
    }
  }

  lemma RestoreNothing(p: Pipe)
    requires Inv(p) && p.reader.Got? && p.reader.item.None?
    ensures Inv(Apply(p, Restore))
  {
    assert Apply(p, Restore).Pending() == p.Pending();
  }

  lemma RestoreKeeps(p: Pipe)
    requires Inv(p) && p.reader.Got?
    ensures Inv(Apply(p, Restore))
  {
    hide Conserved, EndLast, NoEmpty;
    if p.reader.item.Some? {
      RestoreEvent(p);
      RestoreEndLast(p);
      RestoreNoEmpty(p);
    } else {
      RestoreNothing(p);
    }
  }

  lemma Preserved(p: Pipe, step: PipeStep)
    requires Inv(p) && Enabled(p, step)
    ensures Inv(Apply(p, step))
  {
    match step
    case Write(data) => WriteKeeps(p, data);
    case Finish(error) => FinishKeeps(p, error);
    case CloseLocally(error) => assert Apply(p, step).Pending() == p.Pending();
    case Check(room) => CheckKeeps(p, room);
    case Take => assert Apply(p, step).Pending() == p.Pending();
    case Receive(deadline) => ReceiveKeeps(p, deadline);
    case Restore => RestoreKeeps(p);
  }

  // ---- What the reader may conclude ----

  /** The size of the buffer the read that `step` ends was given. */
  function RoomOf(p: Pipe, step: PipeStep): nat
    requires Enabled(p, step)
  {
    match step
    case Check(room) => room
    case Restore => p.reader.room
    case _ => 0
  }

  /** The stream has ended without a local close. */
  ghost predicate Ended(p: Pipe)
  {
    Inv(p) && p.closed && !p.closedLocally
  }

  lemma EndedIsComplete(p: Pipe)
    requires Ended(p)
    ensures p.endQueued && p.Pending() == [] && p.delivered == p.accepted
  {
    assert p.delivered + ([] + []) == p.delivered;
  }

  /** End of file is never reported early: unless the pipe was closed locally, a read of no bytes
      into a non-empty buffer comes after the end marker and after every accepted byte. */
  lemma EofIsEnd(p: Pipe, step: PipeStep)
    requires Inv(p) && Enabled(p, step) && RoomOf(p, step) > 0
    requires Result(p, step) == Some(Ok([])) && !p.closedLocally && !p.wroteEmpty
    ensures Ended(Apply(p, step)) && Apply(p, step).delivered == p.accepted
  {
    Preserved(p, step);
    if step.Restore? && p.reader.item.Some? {
      assert p.Pending()[0] == p.reader.item.value;
    }
    EndedIsComplete(Apply(p, step));
  }

  /** An error ends the stream: it comes from the end marker, after every accepted byte. */
  lemma ErrorIsEnd(p: Pipe, step: PipeStep)
    requires Inv(p) && Enabled(p, step) && !p.closedLocally
    requires Result(p, step).Some? && Result(p, step).value.Err?
    ensures p.reader.Got? && p.reader.item == Some(StreamEnd(Some(Result(p, step).value.error)))
    ensures Ended(Apply(p, step)) && Apply(p, step).delivered == p.accepted
  {
    Preserved(p, step);
    EndedIsComplete(Apply(p, step));
  }

  /** After the end every read reports end of file, and nothing more is accepted or delivered. */
  lemma EndedForever(p: Pipe, step: PipeStep)
    requires Ended(p) && Enabled(p, step) && !step.CloseLocally?
    ensures Ended(Apply(p, step))
    ensures Apply(p, step).delivered == p.delivered && Apply(p, step).accepted == p.accepted
    ensures Result(p, step) == if step.Check? then Some(Ok([])) else None
  {
    Preserved(p, step);
  }

  /** A read that times out changes nothing. */
  lemma TimeoutLosesNothing(p: Pipe, step: PipeStep)
    requires Inv(p) && Enabled(p, step) && Result(p, step) == Some(TimedOut)
    ensures Apply(p, step) == p.(reader := Idle)
    ensures Apply(p, step).Pending() == p.Pending()
  {
  }

  // ---- What reads return ----

  /** The bytes a read hands to its caller. */
  function BytesRead(result: ReadResult): seq<Byte> { if result.Ok? then result.bytes else [] }

  /** What a step hands to the reader is exactly what it counts as delivered: never more than the
      buffer holds, and less only if nothing of the piece is left over. */
  lemma ReadReturns(p: Pipe, step: PipeStep)
    requires Inv(p) && Enabled(p, step)
    ensures match Result(p, step)
            case None => Apply(p, step).delivered == p.delivered
            case Some(result) =>
              && Apply(p, step).delivered == p.delivered + BytesRead(result)
              && |BytesRead(result)| <= RoomOf(p, step)
              && (|BytesRead(result)| < RoomOf(p, step) ==> Apply(p, step).buffer == [])
  {
    hide Conserved, EndLast, NoEmpty;
    assert p.delivered + [] == p.delivered;
  }

  // ---- Whole runs ----

  /** The pipe after a list of steps, and the results its reads returned; `None` when some step
      was not possible at its turn. */
  function RunFrom(p: Pipe, steps: seq<PipeStep>): Option<(Pipe, seq<ReadResult>)>
    decreases |steps|
  {
    if steps == [] then Some((p, []))
    else if !Enabled(p, steps[0]) then None
    else
      match RunFrom(Apply(p, steps[0]), steps[1..])
      case None => None
      case Some((q, results)) =>
        Some((q, (if Result(p, steps[0]).Some? then [Result(p, steps[0]).value] else []) + results))
  }

  /** In every run the delivered bytes are a prefix of the accepted ones, also after a local close. */
  lemma {:induction false} RunKeeps(p: Pipe, steps: seq<PipeStep>)
    requires Inv(p) && RunFrom(p, steps).Some?
    ensures Inv(RunFrom(p, steps).value.0)
    ensures RunFrom(p, steps).value.0.delivered <= RunFrom(p, steps).value.0.accepted
    decreases |steps|
  {
    if steps != [] {
      Preserved(p, steps[0]);
      RunKeeps(Apply(p, steps[0]), steps[1..]);
    }
  }

  /** The bytes a list of reads returned, one read after the other. */
  function Returned(results: seq<ReadResult>): seq<Byte>
  {
    if results == [] then [] else BytesRead(results[0]) + Returned(results[1..])
  }

  lemma {:induction false} ReturnedConcat(a: seq<ReadResult>, b: seq<ReadResult>)
    ensures Returned(a + b) == Returned(a) + Returned(b)
  {
    if a == [] {
      assert a + b == b;
    } else {
      assert (a + b)[1..] == a[1..] + b;
      ReturnedConcat(a[1..], b);
    }
  }

  lemma ReturnedOne(result: ReadResult)
    ensures Returned([result]) == BytesRead(result)
  {
    assert [result][1..] == [];
  }

  /** The errors among the results. */
  function Errors(results: seq<ReadResult>): seq<Error>
  {
    if results == [] then [] else (if results[0].Err? then [results[0].error] else []) + Errors(results[1..])
  }

  lemma {:induction false} ErrorsConcat(a: seq<ReadResult>, b: seq<ReadResult>)
    ensures Errors(a + b) == Errors(a) + Errors(b)
  {
    if a == [] {
      assert a + b == b;
    } else {
      assert (a + b)[1..] == a[1..] + b;
      ErrorsConcat(a[1..], b);
    }
  }

  lemma ErrorsOne(result: ReadResult)
    ensures Errors([result]) == if result.Err? then [result.error] else []
  {
    assert [result][1..] == [];
  }

  function Told(error: Option<Error>): seq<Error> { if error.Some? then [error.value] else [] }

  lemma RunStep(p: Pipe, steps: seq<PipeStep>)
    requires steps != [] && RunFrom(p, steps).Some?
    ensures Enabled(p, steps[0]) && RunFrom(Apply(p, steps[0]), steps[1..]).Some?
    ensures var (q, later) := RunFrom(Apply(p, steps[0]), steps[1..]).value;
            var now := if Result(p, steps[0]).Some? then [Result(p, steps[0]).value] else [];
            RunFrom(p, steps).value == (q, now + later)
  {
  }

  /** In every run, what the reads returned is what was delivered meanwhile. */
  lemma {:induction false} ReadsReturn(p: Pipe, steps: seq<PipeStep>)
    requires Inv(p) && RunFrom(p, steps).Some?
    ensures var (q, results) := RunFrom(p, steps).value;
            q.delivered == p.delivered + Returned(results)
    decreases |steps|
  {
    hide Inv, Apply, Enabled, Result, RunFrom;
    if steps == [] {
      assert RunFrom(p, steps) == Some((p, [])) by { RunNone(p); }
    } else {
      RunStep(p, steps);
      Preserved(p, steps[0]);
      ReadReturns(p, steps[0]);
      ReadsReturn(Apply(p, steps[0]), steps[1..]);
      var (q, later) := RunFrom(Apply(p, steps[0]), steps[1..]).value;
      match Result(p, steps[0])
      case None => assert [] + later == later;
      case Some(result) =>
        ReturnedConcat([result], later);
        ReturnedOne(result);
    }
  }

  lemma RunNone(p: Pipe)
    ensures RunFrom(p, []) == Some((p, []))
  {
  }

  /** A step that is no local close tells an error exactly when it consumes an end marker that has
      one, which closes the pipe. */
  lemma EndTold(p: Pipe, step: PipeStep)
    requires Inv(p) && !p.closedLocally && Enabled(p, step) && !step.CloseLocally?
    ensures var q := Apply(p, step);
            && !q.closedLocally && (p.endQueued ==> q.endQueued && q.endError == p.endError) && (p.closed ==> q.closed)
            && (match Result(p, step)
                case None => q.closed == p.closed
                case Some(result) =>
                  && Errors([result]) == (if q.closed && !p.closed then Told(q.endError) else [])
                  && (q.closed && !p.closed ==> q.endQueued))
  {
    if Result(p, step).Some? {
      ErrorsOne(Result(p, step).value);
    }
    if step.Restore? && p.reader.item.Some? {
      assert p.Pending()[0] == p.reader.item.value;
    }
  }

  /** Over every run without a local close, the end is told once: as soon as it is read, the reads
      have returned every byte accepted, and the error of the end marker, if it has one; before that
      no read returns an error. */
  lemma {:induction false} EndIsTold(p: Pipe, steps: seq<PipeStep>)
    requires Inv(p) && !p.closedLocally && !p.closed && RunFrom(p, steps).Some?
    requires forall i :: 0 <= i < |steps| ==> !steps[i].CloseLocally?
    ensures var (q, results) := RunFrom(p, steps).value;
            && Errors(results) == (if q.closed then Told(q.endError) else [])
            && (q.closed ==> p.delivered + Returned(results) == q.accepted)
  {
    var (q, results) := RunFrom(p, steps).value;
    EndToldInRun(p, steps);
    ReadsReturn(p, steps);
    RunKeeps(p, steps);
    if q.closed {
      EndedIsComplete(q);
    }
  }

  lemma {:induction false} EndToldInRun(p: Pipe, steps: seq<PipeStep>)
    requires Inv(p) && !p.closedLocally && (p.closed ==> p.endQueued) && RunFrom(p, steps).Some?
    requires forall i :: 0 <= i < |steps| ==> !steps[i].CloseLocally?
    ensures var (q, results) := RunFrom(p, steps).value;
            && !q.closedLocally && (p.closed ==> q.closed) && (p.endQueued ==> q.endQueued && q.endError == p.endError)
            && Errors(results) == (if q.closed && !p.closed then Told(q.endError) else [])
    decreases |steps|
  {
    hide Inv, Apply, Enabled, Result, RunFrom;
    if steps == [] {
      RunNone(p);
    } else {
      RunStep(p, steps);
      Preserved(p, steps[0]);
      EndTold(p, steps[0]);
      EndToldInRun(Apply(p, steps[0]), steps[1..]);
      var (q, later) := RunFrom(Apply(p, steps[0]), steps[1..]).value;
      match Result(p, steps[0])
      case None => assert [] + later == later;
      case Some(result) => ErrorsConcat([result], later);
    }
  }

  /** A step of a read. */
  predicate IsRead(step: PipeStep) { step.Check? || step.Take? || step.Receive? || step.Restore? }

  lemma RunCons(p: Pipe, step: PipeStep, steps: seq<PipeStep>)
    requires Enabled(p, step) && RunFrom(Apply(p, step), steps).Some?
    ensures RunFrom(p, [step] + steps).Some?
    ensures RunFrom(p, [step] + steps).value.0 == RunFrom(Apply(p, step), steps).value.0
  {
    assert ([step] + steps)[1..] == steps;
  }

  /** A whole read of an open pipe without left-over bytes, up to the event in the reader's hands. */
  function InHands(p: Pipe, room: nat): Pipe
    requires p.queue != []
  {
    p.(reader := Got(room, Some(p.queue[0])), queue := p.queue[1..])
  }

  lemma RunRead(p: Pipe, room: nat, steps: seq<PipeStep>)
    requires p.reader.Idle? && p.buffer == [] && !p.closed && p.queue != []
    requires RunFrom(Apply(InHands(p, room), Restore), steps).Some?
    ensures var all := [Check(room)] + ([Take] + ([Receive(false)] + ([Restore] + steps)));
            && RunFrom(p, all).Some?
            && RunFrom(p, all).value.0 == RunFrom(Apply(InHands(p, room), Restore), steps).value.0
  {
    hide RunFrom;
    var p1 := p.(reader := Checked(room));
    var p2 := p.(reader := Holding(room));
    RunCons(InHands(p, room), Restore, steps);
    assert Apply(p2, Receive(false)) == InHands(p, room);
    RunCons(p2, Receive(false), [Restore] + steps);
    RunCons(p1, Take, [Receive(false)] + ([Restore] + steps));
    RunCons(p, Check(room), [Take] + ([Receive(false)] + ([Restore] + steps)));
  }

  /** What reads still have to work off. */
  function Unread(p: Pipe): nat { |p.buffer| + |BytesOf(p.queue)| }

  lemma ReadShrinks(p: Pipe, room: nat)
    requires Inv(p) && p.reader.Idle? && p.buffer == [] && !p.closed && p.queue != [] && room > 0
    ensures var q := Apply(InHands(p, room), Restore);
            && Inv(q) && q.reader.Idle? && q.endQueued == p.endQueued && q.closedLocally == p.closedLocally
            && (q.closed || Unread(q) < Unread(p) || (Unread(q) == Unread(p) && |q.queue| < |p.queue|))
  {
    hide Conserved, EndLast, NoEmpty;
    var p1 := p.(reader := Checked(room));
    var p2 := p.(reader := Holding(room));
    Preserved(p, Check(room));
    Preserved(p1, Take);
    Preserved(p2, Receive(false));
    Preserved(InHands(p, room), Restore);
    assert BytesOf(p.queue) == (if p.queue[0].Data? then p.queue[0].bytes else []) + BytesOf(p.queue[1..]);
  }

  lemma CheckShrinks(p: Pipe, room: nat)
    requires Inv(p) && p.reader.Idle? && p.buffer != [] && room > 0
    ensures var q := Apply(p, Check(room));
            && Inv(q) && q.reader.Idle? && q.endQueued == p.endQueued && q.closedLocally == p.closedLocally
            && Unread(q) < Unread(p)
  {
    hide Conserved, EndLast, NoEmpty;
    Preserved(p, Check(room));
  }

  lemma SomethingQueued(p: Pipe)
    requires Inv(p) && p.reader.Idle? && p.endQueued && !p.closed && !p.closedLocally
    ensures p.queue != []
  {
  }

  /** A reader that goes on reading, with any buffer that is not empty, reaches the end. */
  lemma {:induction false} ReadToTheEnd(p: Pipe, room: nat) returns (steps: seq<PipeStep>)
    requires Inv(p) && p.reader.Idle? && p.endQueued && !p.closedLocally && room > 0
    ensures forall i :: 0 <= i < |steps| ==> IsRead(steps[i])
    ensures RunFrom(p, steps).Some? && RunFrom(p, steps).value.0.closed
    decreases Unread(p), |p.queue|
  {
    hide Inv, Apply, RunFrom, Unread;
    if p.closed {
      steps := [];
      RunNone(p);
    } else if p.buffer != [] {
      CheckShrinks(p, room);
      steps := ReadToTheEnd(Apply(p, Check(room)), room);
      RunCons(p, Check(room), steps);
      steps := [Check(room)] + steps;
    } else {
      SomethingQueued(p);
      ReadShrinks(p, room);
      var q := Apply(InHands(p, room), Restore);
      if q.closed {
        steps := [];
        RunNone(q);
      } else {
        steps := ReadToTheEnd(q, room);
      }
      RunRead(p, room, steps);
      steps := [Check(room)] + ([Take] + ([Receive(false)] + ([Restore] + steps)));
    }
  }

  /** After a local close, reads return what was left over and the close's error once, and then end
      of file; what was still queued is not read. */
  lemma {:induction false} LocalCloseTold(p: Pipe, steps: seq<PipeStep>)
    requires Inv(p) && p.closedLocally && p.reader.Idle? && RunFrom(p, steps).Some?
    requires forall i :: 0 <= i < |steps| ==> !steps[i].CloseLocally?
    ensures var (q, results) := RunFrom(p, steps).value;
            && Returned(results) + q.buffer == p.buffer
            && Errors(results) + Told(q.readError) == Told(p.readError)
            && (forall i :: 0 <= i < |results| ==> !results[i].TimedOut?)
    decreases |steps|
  {
    hide Inv, RunFrom;
    if steps == [] {
      RunNone(p);
    } else {
      RunStep(p, steps);
      Preserved(p, steps[0]);
      LocalStep(p, steps[0]);
      LocalCloseTold(Apply(p, steps[0]), steps[1..]);
      var (q, later) := RunFrom(Apply(p, steps[0]), steps[1..]).value;
      LocalJoin(p, steps[0], later, q);
    }
  }

  lemma LocalStep(p: Pipe, step: PipeStep)
    requires Inv(p) && p.closedLocally && p.reader.Idle? && Enabled(p, step) && !step.CloseLocally?
    ensures var q := Apply(p, step);
            && q.closedLocally && q.reader.Idle?
            && (match Result(p, step)
                case None => q.buffer == p.buffer && q.readError == p.readError
                case Some(result) =>
                  && !result.TimedOut? && BytesRead(result) + q.buffer == p.buffer
                  && Errors([result]) + Told(q.readError) == Told(p.readError))
  {
    if Result(p, step).Some? {
      ErrorsOne(Result(p, step).value);
    }
  }

  lemma LocalJoin(p: Pipe, step: PipeStep, later: seq<ReadResult>, q: Pipe)
    requires Enabled(p, step)
    requires match Result(p, step)
             case None => Apply(p, step).buffer == p.buffer && Apply(p, step).readError == p.readError
             case Some(result) =>
               && BytesRead(result) + Apply(p, step).buffer == p.buffer
               && Errors([result]) + Told(Apply(p, step).readError) == Told(p.readError)
    requires Returned(later) + q.buffer == Apply(p, step).buffer
    requires Errors(later) + Told(q.readError) == Told(Apply(p, step).readError)
    ensures var results := (if Result(p, step).Some? then [Result(p, step).value] else []) + later;
            && Returned(results) + q.buffer == p.buffer
            && Errors(results) + Told(q.readError) == Told(p.readError)
  {
    hide Apply, Result, Enabled;
    match Result(p, step)
    case None => assert [] + later == later;
    case Some(result) =>
      ReturnedConcat([result], later);
      ReturnedOne(result);
      ErrorsConcat([result], later);
      Assoc(BytesRead(result), Returned(later), q.buffer);
      Assoc(Errors([result]), Errors(later), Told(q.readError));
  }

  /** Once the stream has ended, every later read returns end of file, for ever. */
  lemma {:induction false} EofForever(p: Pipe, steps: seq<PipeStep>)
    requires Ended(p) && RunFrom(p, steps).Some?
    requires forall i :: 0 <= i < |steps| ==> !steps[i].CloseLocally?
    ensures var (q, results) := RunFrom(p, steps).value;
            && Ended(q) && q.delivered == p.delivered
            && forall i :: 0 <= i < |results| ==> results[i] == Ok([])
    decreases |steps|
  {
    if steps != [] {
      EndedForever(p, steps[0]);
      EofForever(Apply(p, steps[0]), steps[1..]);
    }
  }

  // ---- The object ----

  /** `PipeInner` behind its mutex. `read` is the sequence Check, Take, Receive, Restore. */
  class PipeInner {
    var closed: bool
    var streamEndQueued: bool
    var readError: Option<Error>
    var senderOpen: bool
    var queue: seq<PipeEvent>
    var buffer: seq<Byte>
    var reader: Reader
    ghost var endError: Option<Error>
    ghost var accepted: seq<Byte>
    ghost var delivered: seq<Byte>
    ghost var wroteEmpty: bool
    ghost var closedLocally: bool

    ghost function View(): Pipe
      reads this
    {
      Pipe(closed, streamEndQueued, endError, readError, senderOpen, queue, buffer, reader,
           accepted, delivered, wroteEmpty, closedLocally)
    }

    constructor ()
      ensures View() == NewPipe() && Inv(View())
    {
      closed, streamEndQueued, readError, senderOpen := false, false, None, true;
      queue, buffer, reader := [], [], Idle;
      endError, accepted, delivered, wroteEmpty, closedLocally := None, [], [], false, false;
    }

    method Write(data: seq<Byte>) returns (ok: bool)
      requires Inv(View())
      modifies this
      ensures ok == Accepts(old(View()))
      ensures View() == Apply(old(View()), PipeStep.Write(data)) && Inv(View())
    {
      WriteKeeps(View(), data);
      if closed || streamEndQueued || !senderOpen {
        return false;
      }
      queue := queue + [Data(data)];
      accepted, wroteEmpty := accepted + data, wroteEmpty || data == [];
      ok := true;
    }

    method FinishStream(error: Option<Error>)
      requires Inv(View())
      modifies this
      ensures View() == Apply(old(View()), Finish(error)) && Inv(View())
    {
      FinishKeeps(View(), error);
      if closed || streamEndQueued {
        return;
      }
      // The channel takes the marker: an open pipe has its sender, and the receiver is never dropped.
      streamEndQueued, endError := true, error;
      queue := queue + [StreamEnd(error)];
    }

    method CloseWithError(error: Option<Error>)
      requires Inv(View())
      modifies this
      ensures View() == Apply(old(View()), CloseLocally(error)) && Inv(View())
    {
      Preserved(View(), CloseLocally(error));
      readError, closed, senderOpen := error, true, false;
      closedLocally := true;
    }

    method ReadCheck(room: nat) returns (result: Option<ReadResult>)
      requires Inv(View()) && Enabled(View(), Check(room))
      modifies this
      ensures View() == Apply(old(View()), Check(room)) && Inv(View())
      ensures result == Result(old(View()), Check(room))
      ensures delivered == old(delivered) + (if result.Some? then BytesRead(result.value) else [])
    {
      CheckKeeps(View(), room);
      ReadReturns(View(), Check(room));
      if buffer != [] {
        var len := Min(|buffer|, room);
        result := Some(Ok(buffer[..len]));
        delivered := delivered + buffer[..len];
        buffer := buffer[len..];
      } else if closed && !senderOpen {
        result := Some(if readError.Some? then Err(readError.value) else Ok([]));
        readError := None;
      } else {
        result := None;
        reader := Checked(room);
      }
    }

    method ReadTake()
      requires Inv(View()) && Enabled(View(), Take)
      modifies this
      ensures View() == Apply(old(View()), Take) && Inv(View())
    {
      Preserved(View(), Take);
      reader := Holding(reader.room);
    }

    method ReadReceive(deadline: bool)
      requires Inv(View()) && Enabled(View(), Receive(deadline))
      modifies this
      ensures View() == Apply(old(View()), Receive(deadline)) && Inv(View())
    {
      ReceiveKeeps(View(), deadline);
      if deadline || queue == [] {
        reader := Got(reader.room, None);
      } else {
        reader, queue := Got(reader.room, Some(queue[0])), queue[1..];
      }
    }

    method ReadRestore() returns (result: ReadResult)
      requires Inv(View()) && Enabled(View(), Restore)
      modifies this
      ensures View() == Apply(old(View()), Restore) && Inv(View())
      ensures Some(result) == Result(old(View()), Restore)
      ensures delivered == old(delivered) + BytesRead(result)
    {
      hide Inv, Apply, Result;
      RestoreKeeps(View());
      ReadReturns(View(), Restore);
      if reader.item.None? {
        result := GiveUp();
      } else if reader.item.value.Data? {
        result := TakeData();
      } else {
        result := TakeEnd();
      }
    }

    /** Data: as much as the buffer holds, the rest is left over. */
    method TakeData() returns (result: ReadResult)
      requires reader.Got? && reader.item.Some? && reader.item.value.Data?
      modifies this
      ensures View() == Apply(old(View()), Restore) && Some(result) == Result(old(View()), Restore)
    {
      var bytes := reader.item.value.bytes;
      var len := Min(|bytes|, reader.room);
      result := Ok(bytes[..len]);
      buffer := buffer + bytes[len..];
      delivered := delivered + bytes[..len];
      reader := Idle;
    }

    /** The end of the stream. */
    method TakeEnd() returns (result: ReadResult)
      requires reader.Got? && reader.item.Some? && reader.item.value.StreamEnd?
      modifies this
      ensures View() == Apply(old(View()), Restore) && Some(result) == Result(old(View()), Restore)
    {
      result := if reader.item.value.error.Some? then Err(reader.item.value.error.value) else Ok([]);
      closed, senderOpen, reader := true, false, Idle;
    }

    /** The deadline has passed or the sender is gone. */
    method GiveUp() returns (result: ReadResult)
      requires reader.Got? && reader.item.None?
      modifies this
      ensures View() == Apply(old(View()), Restore) && Some(result) == Result(old(View()), Restore)
    {
      result := if readError.Some? then Err(readError.value) else if !senderOpen then Ok([]) else TimedOut;
      readError, reader := None, Idle;
    }
  }
}
