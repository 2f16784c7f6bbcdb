/** What the calls on a stream amount to over a run: what its reads returned and what was written. */
module SessionLogs {
  import opened Bytes
  import opened Options
  import opened Texts
  import opened Frames
  import opened Pipes
  import opened Sessions
  import opened SessionSafety
  import opened SessionReceive
  import opened SessionFins

  // ---- One step and one stream ----

  /** What an event does to the pipe of stream `o`. */
  function Touch(s: Session, ev: Event, o: nat): Option<PipeStep>
    requires o < |s.table.objs|
  {
    match ev
    case Api(ReadStream(p, step)) => if p == o then Some(step) else None
    case RunTask(FinishPipe(p, error)) => if p == o then Some(Finish(error)) else None
    case RunTask(ClosePipe(p)) => if p == o then Some(CloseLocally(None)) else None
    case Receive(Continue) =>
      if s.rx.at.PushPipe? && s.rx.at.o == o && Accepts(s.table.objs[o].pipe) then Some(Write(s.rx.at.data))
      else if s.rx.at.PeerFinish? && s.rx.at.o == o then Some(Finish(s.rx.at.error))
      else None
    case _ => None
  }

  /** The data an event queues for stream `o`. */
  function SentNow(s: Session, ev: Event, o: nat): seq<seq<Byte>>
  {
    if ev.RunTask? && ev.task.SendPsh? && ev.task.o == o && !s.channel.gone then [ev.task.data] else []
  }

  /** The stream after an event, as far as its pipe and what it has sent go. */
  ghost predicate Touched(x: Stream, x': Stream, touch: Option<PipeStep>, sent: seq<seq<Byte>>)
  {
    && x'.sid == x.sid
    && (match touch
        case None => x'.pipe == x.pipe
        case Some(step) => Enabled(x.pipe, step) && x'.pipe == Apply(x.pipe, step))
    && x'.sent == x.sent + Flat(sent)
  }

  lemma SameTouched(x: Stream, x': Stream)
    requires x'.sid == x.sid && x'.pipe == x.pipe && x'.sent == x.sent
    ensures Touched(x, x', None, [])
  {
    hide Apply, Enabled;
  }

  lemma PipeTouched(table: Table, p: nat, step: PipeStep, o: nat)
    requires p < |table.objs| && o < |table.objs| && Enabled(table.objs[p].pipe, step)
    ensures Touched(table.objs[o], table.OnPipe(p, step).objs[o], if p == o then Some(step) else None, [])
  {
    hide Apply, Enabled;
    if p != o {
      SameTouched(table.objs[o], table.objs[o]);
    }
  }

  lemma MarkTouched(table: Table, p: nat, cause: Cause, o: nat)
    requires p < |table.objs| && o < |table.objs|
    ensures Touched(table.objs[o], table.MarkClosed(p, cause).objs[o], None, [])
  {
    SameTouched(table.objs[o], table.MarkClosed(p, cause).objs[o]);
  }

  lemma SentTouched(x: Stream, data: seq<Byte>)
    ensures Touched(x, x.(sent := x.sent + data), None, [data])
  {
    FlatSnoc([], data);
    assert [] + [data] == [data] && Flat([]) == [];
  }

  lemma CallTouches(s: Session, call: Call, o: nat)
    requires CallPossible(s, call) && o < |s.table.objs|
    ensures o < |CallStep(s, call).table.objs|
    ensures Touched(s.table.objs[o], CallStep(s, call).table.objs[o], Touch(s, Api(call), o), [])
  {
    hide Apply, Touched, Enabled;
    SameTouched(s.table.objs[o], s.table.objs[o]);
    match call
    case CloseStream(p) => MarkTouched(s.table, p, Local, o); return;
    case ReadStream(p, step) => PipeTouched(s.table, p, step, o); return;
    case _ => return;
  }

  /** What the next section of an open or a write does to the streams. */
  lemma OpenTaskObjs(s: Session, t: Task)
    requires IsOpenTask(t) && TaskInRange(t, |s.table.objs|)
    ensures var objs, objs' := s.table.objs, OpenTaskStep(s, t).table.objs;
            match t
            case OpenLock => objs' == objs || (|objs'| == |objs| + 1 && objs' == objs + [objs'[|objs|]] && Blank(objs'[|objs|]))
            case SendSyn(o) => objs' == if s.channel.gone then objs else objs[o := objs[o].(handed := true)]
            case UndoOpen(_) => objs' == objs
            case SendPsh(o, data) =>
              objs' == if s.channel.gone then objs else objs[o := objs[o].(sent := objs[o].sent + data)]
  {
    hide Ascii;
    match t
    case OpenLock => return;
    case SendSyn(o) => return;
    case UndoOpen(o) => return;
    case SendPsh(o, data) => return;
  }

  lemma OpenTaskTouches(s: Session, t: Task, o: nat)
    requires IsOpenTask(t) && TaskInRange(t, |s.table.objs|) && o < |s.table.objs|
    ensures o < |OpenTaskStep(s, t).table.objs|
    ensures Touched(s.table.objs[o], OpenTaskStep(s, t).table.objs[o], None, SentNow(s, RunTask(t), o))
  {
    hide Touched, OpenTaskStep;
    var x := s.table.objs[o];
    SameTouched(x, x);
    OpenTaskObjs(s, t);
    match t
    case OpenLock => return;
    case SendSyn(p) => SameTouched(x, x.(handed := true)); return;
    case UndoOpen(p) => return;
    case SendPsh(p, data) => SentTouched(x, data); return;
  }

  /** What the next section of a close does to the streams. */
  lemma CloseTaskObjs(s: Session, t: Task)
    requires !IsOpenTask(t) && TaskInRange(t, |s.table.objs|)
    ensures CloseTaskStep(s, t).table.objs ==
            match t
            case CloseBySession(o, _) => s.table.MarkClosed(o, SessionEnd).objs
            case FinishPipe(o, error) => s.table.OnPipe(o, Finish(error)).objs
            case ClosePipe(o) => s.table.OnPipe(o, CloseLocally(None)).objs
            case _ => s.table.objs
  {
    hide Apply, Doomed;
    match t
    case CloseBySession(o, error) => return;
    case FinishPipe(o, error) => return;
    case ClosePipe(o) => return;
    case _ => return;
  }

  lemma CloseTaskTouches(s: Session, t: Task, o: nat)
    requires !IsOpenTask(t) && TaskInRange(t, |s.table.objs|) && o < |s.table.objs|
    ensures o < |CloseTaskStep(s, t).table.objs|
    ensures Touched(s.table.objs[o], CloseTaskStep(s, t).table.objs[o], Touch(s, RunTask(t), o), [])
  {
    hide Apply, Touched, CloseTaskStep;
    SameTouched(s.table.objs[o], s.table.objs[o]);
    CloseTaskObjs(s, t);
    match t
    case CloseBySession(p, error) => MarkTouched(s.table, p, SessionEnd, o); return;
    case FinishPipe(p, error) => PipeTouched(s.table, p, Finish(error), o); return;
    case ClosePipe(p) => PipeTouched(s.table, p, CloseLocally(None), o); return;
    case _ => return;
  }

  lemma PushTouches(s: Session, o: nat)
    requires IsPush(s.rx.at) && AtInRange(s.rx.at, |s.table.objs|) && o < |s.table.objs|
    ensures |PushStep(s, s.rx.at).table.objs| == |s.table.objs|
    ensures Touched(s.table.objs[o], PushStep(s, s.rx.at).table.objs[o], Touch(s, Event.Receive(Continue), o), [])
  {
    hide Apply, Accepts, Touched;
    SameTouched(s.table.objs[o], s.table.objs[o]);
    match s.rx.at
    case PushPipe(p, data) => PipeTouched(s.table, p, Write(data), o); return;
    case _ => return;
  }

  lemma LifeTouches(s: Session, o: nat)
    requires !IsPush(s.rx.at) && !s.rx.at.Next? && !s.rx.at.Stopped? && AtInRange(s.rx.at, |s.table.objs|) && o < |s.table.objs|
    ensures o < |LifeStep(s, s.rx.at).table.objs|
    ensures Touched(s.table.objs[o], LifeStep(s, s.rx.at).table.objs[o], Touch(s, Event.Receive(Continue), o), [])
  {
    hide Apply, Touched;
    SameTouched(s.table.objs[o], s.table.objs[o]);
    match s.rx.at
    case Creating(sid) => return;
    case PeerRemoved(p, error) => MarkTouched(s.table, p, Peer, o); return;
    case PeerFinish(p, error) => PipeTouched(s.table, p, Finish(error), o); return;
  }

  lemma ReceiveTouches(digest: Text -> Text, s: Session, progress: Progress, o: nat)
    requires ProgressPossible(s, progress) && o < |s.table.objs|
    ensures o < |ReceiveStep(digest, s, progress).table.objs|
    ensures Touched(s.table.objs[o], ReceiveStep(digest, s, progress).table.objs[o], Touch(s, Event.Receive(progress), o), [])
  {
    hide Touched, Accepts, ActionStep, PushStep, LifeStep, HandleFrame, Decode;
    SameTouched(s.table.objs[o], s.table.objs[o]);
    match progress
    case Act(acked) => ActionRx(s.(rx := s.rx.(todo := s.rx.todo[1..])), s.rx.todo[0], acked);
    case Continue =>
      if IsPush(s.rx.at) {
        PushTouches(s, o);
      } else {
        LifeTouches(s, o);
      }
    case _ =>
  }

  lemma StepTouches(digest: Text -> Text, s: Session, ev: Event, o: nat)
    requires Possible(s, ev) && o < |s.table.objs|
    ensures o < |Step(digest, s, ev).table.objs|
    ensures Touched(s.table.objs[o], Step(digest, s, ev).table.objs[o], Touch(s, ev, o), SentNow(s, ev, o))
  {
    hide Touched, CallStep, OpenTaskStep, CloseTaskStep, ReceiveStep, Accepts;
    match ev
    case Api(call) => CallTouches(s, call, o);
    case RunTask(t) =>
      var s' := s.(tasks := s.tasks - multiset{t});
      if IsOpenTask(t) {
        OpenTaskTouches(s', t, o);
      } else {
        CloseTaskTouches(s', t, o);
      }
    case Receive(progress) => ReceiveTouches(digest, s, progress, o);
  }

  ghost predicate Blank(x: Stream) { x.pipe == NewPipe() && x.sent == [] && !x.Closed() }

  /** A stream that an event creates is fresh. */
  lemma StepCreates(digest: Text -> Text, s: Session, ev: Event, o: nat)
    requires Possible(s, ev) && |s.table.objs| <= o < |Step(digest, s, ev).table.objs|
    ensures Blank(Step(digest, s, ev).table.objs[o])
  {
    hide CallStep, OpenTaskStep, CloseTaskStep, ReceiveStep, Blank;
    match ev
    case Api(call) => CallLength(s, call);
    case RunTask(t) => TaskCreates(s.(tasks := s.tasks - multiset{t}), t, o);
    case Receive(progress) => ReceiveCreates(digest, s, progress, o);
  }

  lemma CallLength(s: Session, call: Call)
    requires CallPossible(s, call)
    ensures |CallStep(s, call).table.objs| == |s.table.objs|
  {
    hide Apply, Enabled;
  }

  lemma TaskCreates(s: Session, t: Task, o: nat)
    requires TaskInRange(t, |s.table.objs|)
    ensures var objs := (if IsOpenTask(t) then OpenTaskStep(s, t) else CloseTaskStep(s, t)).table.objs;
            |s.table.objs| <= o < |objs| ==> Blank(objs[o])
  {
    hide Apply, OpenTaskStep, CloseTaskStep, Blank;
    if IsOpenTask(t) {
      OpenTaskObjs(s, t);
    } else {
      CloseTaskObjs(s, t);
    }
  }

  lemma ReceiveCreates(digest: Text -> Text, s: Session, progress: Progress, o: nat)
    requires ProgressPossible(s, progress) && |s.table.objs| <= o < |ReceiveStep(digest, s, progress).table.objs|
    ensures Blank(ReceiveStep(digest, s, progress).table.objs[o])
  {
    hide HandleFrame, ActionStep, PushStep, LifeStep, Decode, Blank;
    match progress
    case Act(acked) => ActionRx(s.(rx := s.rx.(todo := s.rx.todo[1..])), s.rx.todo[0], acked);
    case Continue =>
      if IsPush(s.rx.at) {
        PushLength(s);
      } else {
        LifeCreates(s, o);
      }
    case _ =>
  }

  lemma LifeCreates(s: Session, o: nat)
    requires !IsPush(s.rx.at) && !s.rx.at.Next? && !s.rx.at.Stopped? && AtInRange(s.rx.at, |s.table.objs|)
    requires |s.table.objs| <= o < |LifeStep(s, s.rx.at).table.objs|
    ensures Blank(LifeStep(s, s.rx.at).table.objs[o])
  {
    hide Apply;
    match s.rx.at
    case Creating(sid) => return;
    case PeerRemoved(p, error) => return;
    case PeerFinish(p, error) => return;
  }

  lemma PushLength(s: Session)
    requires IsPush(s.rx.at) && AtInRange(s.rx.at, |s.table.objs|)
    ensures |PushStep(s, s.rx.at).table.objs| == |s.table.objs|
  {
    hide Apply, Accepts;
  }

  // ---- The logs of a run ----

  /** What an event returns to the reader of stream `o`. */
  function ReadNow(s: Session, ev: Event, o: nat): seq<ReadResult>
  {
    if ev.Api? && ev.call.ReadStream? && ev.call.o == o && Possible(s, ev) && Result(s.table.objs[o].pipe, ev.call.step).Some?
    then [Result(s.table.objs[o].pipe, ev.call.step).value] else []
  }

  /** What the reads on stream `o` returned in the course of a run. */
  function ReadLog(digest: Text -> Text, init: Session, events: seq<Event>, o: nat): seq<ReadResult>
  {
    if events == [] then []
    else
      var front := events[..|events| - 1];
      ReadLog(digest, init, front, o) +
      match Run(digest, init, front)
      case None => []
      case Some(s) => ReadNow(s, events[|events| - 1], o)
  }

  /** The pieces of data that writes queued for stream `o` in the course of a run. */
  function WriteLog(digest: Text -> Text, init: Session, events: seq<Event>, o: nat): seq<seq<Byte>>
  {
    if events == [] then []
    else
      var front := events[..|events| - 1];
      WriteLog(digest, init, front, o) +
      match Run(digest, init, front)
      case None => []
      case Some(s) => SentNow(s, events[|events| - 1], o)
  }

  /** The pipe and the reader of a stream agree: the reads have returned what was delivered, and unless
      it was closed locally, the end was told exactly if the pipe is closed. */
  ghost predicate Agrees(p: Pipe, results: seq<ReadResult>)
  {
    && p.delivered == Returned(results)
    && (!p.closedLocally ==> Errors(results) == (if p.closed then Told(p.endError) else []))
  }

  lemma ReadAgrees(p: Pipe, step: PipeStep, results: seq<ReadResult>)
    requires Inv(p) && Enabled(p, step) && Agrees(p, results)
    ensures Agrees(Apply(p, step), results + if Result(p, step).Some? then [Result(p, step).value] else [])
  {
    hide Inv, Result, Apply, Enabled;
    ReadReturns(p, step);
    CloseStays(p, step);
    match Result(p, step)
    case None =>
      assert results + [] == results;
      if !step.CloseLocally? && !p.closedLocally {
        EndTold(p, step);
        ClosedHasEnd(p);
      }
    case Some(result) =>
      ReturnedConcat(results, [result]);
      ReturnedOne(result);
      ErrorsConcat(results, [result]);
      if !p.closedLocally {
        NoResultOfClose(p, step);
        EndTold(p, step);
        ClosedHasEnd(p);
      }
  }

  lemma CloseStays(p: Pipe, step: PipeStep)
    requires Enabled(p, step)
    ensures p.closedLocally || step.CloseLocally? ==> Apply(p, step).closedLocally
  {
  }

  lemma NoResultOfClose(p: Pipe, step: PipeStep)
    requires Enabled(p, step) && Result(p, step).Some?
    ensures !step.CloseLocally?
  {
  }

  lemma ClosedHasEnd(p: Pipe)
    requires Inv(p) && !p.closedLocally
    ensures p.closed ==> p.endQueued
  {
  }

  /** Steps of others leave the reader alone. */
  lemma OtherStep(p: Pipe, step: PipeStep)
    requires Enabled(p, step) && !IsRead(step)
    ensures Result(p, step).None?
  {
  }

  /** Only read calls return anything to the reader. */
  lemma ReadNowIs(s: Session, ev: Event, o: nat)
    requires Possible(s, ev) && o < |s.table.objs|
    requires Touch(s, ev, o).Some? ==> Enabled(s.table.objs[o].pipe, Touch(s, ev, o).value)
    ensures ReadNow(s, ev, o) ==
            match Touch(s, ev, o)
            case None => []
            case Some(step) =>
              if Result(s.table.objs[o].pipe, step).Some? then [Result(s.table.objs[o].pipe, step).value] else []
  {
    hide Result, Accepts;
    if Touch(s, ev, o).Some? && !ev.Api? {
      OtherStep(s.table.objs[o].pipe, Touch(s, ev, o).value);
    }
  }

  ghost predicate Logged(x: Stream, results: seq<ReadResult>, writes: seq<seq<Byte>>)
  {
    Agrees(x.pipe, results) && x.sent == Flat(writes)
  }

  lemma LoggedStep(digest: Text -> Text, s: Session, ev: Event, o: nat, results: seq<ReadResult>, writes: seq<seq<Byte>>)
    requires Sound(s) && Possible(s, ev) && o < |s.table.objs| && Logged(s.table.objs[o], results, writes)
    ensures o < |Step(digest, s, ev).table.objs|
    ensures Logged(Step(digest, s, ev).table.objs[o], results + ReadNow(s, ev, o), writes + SentNow(s, ev, o))
  {
    hide Sound, Possible, Step, Touch, ReadNow, SentNow, Agrees, Apply, Enabled, Result, Flat, StreamOk;
    var x := s.table.objs[o];
    StepTouches(digest, s, ev, o);
    ReadNowIs(s, ev, o);
    FlatConcat(writes, SentNow(s, ev, o));
    match Touch(s, ev, o)
    case None => assert results + [] == results;
    case Some(step) =>
      PipeSound(s, o);
      ReadAgrees(x.pipe, step, results);
  }

  lemma BlankLogged(x: Stream)
    requires Blank(x)
    ensures Logged(x, [], [])
  {
  }

  /** Nothing is read from or written to a stream before it exists. */
  lemma NoCallsYet(s: Session, ev: Event, o: nat)
    requires Possible(s, ev) && o >= |s.table.objs|
    ensures ReadNow(s, ev, o) == [] && SentNow(s, ev, o) == []
  {
  }

  lemma LogsSnoc(digest: Text -> Text, init: Session, events: seq<Event>, o: nat)
    requires events != [] && Run(digest, init, events[..|events| - 1]).Some?
    ensures var front, ev := events[..|events| - 1], events[|events| - 1];
            var s := Run(digest, init, front).value;
            && ReadLog(digest, init, events, o) == ReadLog(digest, init, front, o) + ReadNow(s, ev, o)
            && WriteLog(digest, init, events, o) == WriteLog(digest, init, front, o) + SentNow(s, ev, o)
  {
    hide Run, ReadNow, SentNow;
  }

  lemma {:induction false} NotYetLogged(digest: Text -> Text, init: Session, events: seq<Event>, o: nat)
    requires Sound(init) && Run(digest, init, events).Some? && o >= |Run(digest, init, events).value.table.objs|
    ensures ReadLog(digest, init, events, o) == [] && WriteLog(digest, init, events, o) == []
  {
    hide Step, Possible, Sound, ReadNow, SentNow, GrowsOne;
    if events != [] {
      var front, ev := events[..|events| - 1], events[|events| - 1];
      var s := Run(digest, init, front).value;
      RunsSound(digest, init, front);
      StepKeeps(digest, s, ev);
      NotYetLogged(digest, init, front, o);
      LogsSnoc(digest, init, events, o);
      NoCallsYet(s, ev, o);
    }
  }

  /** In every run, what was delivered on a stream is what its reads returned, its end was told to the
      reader exactly if the pipe is closed, and what it has sent is what the writes queued. */
  lemma {:induction false} LogsAgree(digest: Text -> Text, init: Session, events: seq<Event>, o: nat)
    requires Sound(init) && init.table.objs == []
    requires Run(digest, init, events).Some? && o < |Run(digest, init, events).value.table.objs|
    ensures Logged(Run(digest, init, events).value.table.objs[o],
                   ReadLog(digest, init, events, o), WriteLog(digest, init, events, o))
  {
    hide Step, Possible, Sound, ReadNow, SentNow, Logged, ReadLog, WriteLog;
    if events != [] {
      var front, ev := events[..|events| - 1], events[|events| - 1];
      var s := Run(digest, init, front).value;
      RunsSound(digest, init, front);
      LogsSnoc(digest, init, events, o);
      if o < |s.table.objs| {
        LogsAgree(digest, init, front, o);
        LoggedStep(digest, s, ev, o, ReadLog(digest, init, front, o), WriteLog(digest, init, front, o));
      } else {
        NotYetLogged(digest, init, front, o);
        NoCallsYet(s, ev, o);
        StepCreates(digest, s, ev, o);
        BlankLogged(Step(digest, s, ev).table.objs[o]);
      }
    }
  }

  // ---- From write calls to the queue ----

  /** The event is a write of `data` to stream `o`, which is open. */
  predicate WritesNow(s: Session, ev: Event, o: nat, data: seq<Byte>)
  {
    ev == Api(WriteStream(o, data)) && o < |s.table.objs| && !s.table.objs[o].Closed()
  }

  /** How many writes of `data` stream `o` has taken in the course of a run. */
  function WriteCalls(digest: Text -> Text, init: Session, events: seq<Event>, o: nat, data: seq<Byte>): nat
  {
    if events == [] then 0
    else
      var front := events[..|events| - 1];
      WriteCalls(digest, init, front, o, data) +
      match Run(digest, init, front)
      case None => 0
      case Some(s) => if WritesNow(s, events[|events| - 1], o, data) then 1 else 0
  }

  lemma CallWrites(s: Session, call: Call, o: nat, data: seq<Byte>)
    requires CallPossible(s, call)
    ensures CallStep(s, call).tasks[SendPsh(o, data)]
         == s.tasks[SendPsh(o, data)] + if WritesNow(s, Api(call), o, data) then 1 else 0
    ensures !CallStep(s, call).channel.gone ==> !s.channel.gone
  {
    hide Apply, Enabled;
    match call
    case OpenStream => return;
    case CloseStream(p) => return;
    case WriteStream(p, bytes) => return;
    case _ => return;
  }

  lemma OpenTaskWrites(s: Session, t: Task, o: nat, data: seq<Byte>)
    requires IsOpenTask(t) && TaskInRange(t, |s.table.objs|)
    ensures var s' := OpenTaskStep(s, t);
            s'.tasks[SendPsh(o, data)] == s.tasks[SendPsh(o, data)] && s'.channel.gone == s.channel.gone
  {
    hide Ascii;
  }

  lemma CloseTaskWrites(s: Session, t: Task, o: nat, data: seq<Byte>)
    requires !IsOpenTask(t) && TaskInRange(t, |s.table.objs|)
    ensures var s' := CloseTaskStep(s, t);
            s'.tasks[SendPsh(o, data)] == s.tasks[SendPsh(o, data)] && s'.channel.gone == s.channel.gone
  {
    hide Apply;
    assert SendPsh(o, data) !in Doomed(s.table.streams);
    hide Doomed;
    match t
    case CloseBySession(p, error) => return;
    case RemoveSelf(p) => return;
    case Drain => return;
    case _ => return;
  }

  lemma ReceiveGone(digest: Text -> Text, s: Session, progress: Progress)
    requires ProgressPossible(s, progress)
    ensures ReceiveStep(digest, s, progress).channel.gone == s.channel.gone
  {
    hide HandleFrame, Apply, Accepts, Ascii, Decode;
    match progress
    case Act(acked) => return;
    case Continue => return;
    case _ => return;
  }

  lemma StepWrites(digest: Text -> Text, s: Session, ev: Event, o: nat, data: seq<Byte>)
    requires Possible(s, ev)
    ensures var s' := Step(digest, s, ev);
            && s'.tasks[SendPsh(o, data)] + (if ev == RunTask(SendPsh(o, data)) then 1 else 0)
               == s.tasks[SendPsh(o, data)] + (if WritesNow(s, ev, o, data) then 1 else 0)
            && (!s'.channel.gone ==> !s.channel.gone)
  {
    hide CallStep, OpenTaskStep, CloseTaskStep, ReceiveStep;
    match ev
    case Api(call) => CallWrites(s, call, o, data);
    case RunTask(t) =>
      var s' := s.(tasks := s.tasks - multiset{t});
      if IsOpenTask(t) {
        OpenTaskWrites(s', t, o, data);
      } else {
        CloseTaskWrites(s', t, o, data);
      }
    case Receive(progress) =>
      ReceiveTasks(digest, s, progress);
      ReceiveGone(digest, s, progress);
  }

  lemma SentCount(s: Session, ev: Event, o: nat, data: seq<Byte>, writes: seq<seq<Byte>>)
    requires !s.channel.gone
    ensures multiset(writes + SentNow(s, ev, o))[data]
         == multiset(writes)[data] + if ev == RunTask(SendPsh(o, data)) then 1 else 0
  {
    if SentNow(s, ev, o) == [] {
      assert writes + [] == writes;
    }
  }

  /** No write is lost, invented or doubled: while the writer task lives, the pieces queued for a
      stream and those about to be are exactly the pieces of the write calls it has taken. */
  lemma {:induction false} WritesAccounted(digest: Text -> Text, init: Session, events: seq<Event>, o: nat, data: seq<Byte>)
    requires init.tasks == multiset{} && Run(digest, init, events).Some?
    requires !Run(digest, init, events).value.channel.gone
    ensures WriteCalls(digest, init, events, o, data)
         == multiset(WriteLog(digest, init, events, o))[data] + Run(digest, init, events).value.tasks[SendPsh(o, data)]
  {
    hide Step, Possible, ReadNow, SentNow, WritesNow;
    if events != [] {
      var front, ev := events[..|events| - 1], events[|events| - 1];
      var s := Run(digest, init, front).value;
      StepWrites(digest, s, ev, o, data);
      WritesAccounted(digest, init, front, o, data);
      LogsSnoc(digest, init, events, o);
      SentCount(s, ev, o, data, WriteLog(digest, init, front, o));
    }
  }
}
