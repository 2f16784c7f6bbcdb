/** Ends reach the reader, on either side of the connection, and say who ended the stream. */
module SessionEnds {
  import opened Options
  import opened Texts
  import opened Frames
  import opened Engine
  import opened Pipes
  import opened Sessions
  import opened SessionSafety
  import opened SessionReceive
  import opened SessionDelivery
  import opened SessionFins
  import opened SessionLogs

  // ---- A close by the peer ----

  /** Stream `o`, closed by the peer, has an end queued that says what the first frame that ended it
      says, or is just getting it. */
  ghost predicate Announced(x: Stream, o: nat, rx: Receiver)
  {
    x.closedBy == Some(Peer) ==>
      && x.born <= |rx.handled| && EndedFor(x.sid, Seen(x, rx.handled))
      && ((rx.at.PeerFinish? && rx.at.o == o) || x.pipe.endQueued)
      && (x.pipe.endQueued ==> x.pipe.endError == FirstEnd(x.sid, Seen(x, rx.handled)))
  }

  /** In every run of either end, a stream closed by its peer has its end queued or is just getting
      it, and the end says what the first frame that ended the stream says. */
  lemma AnnouncedRuns(digest: Text -> Text, init: Session, events: seq<Event>, o: nat)
    requires Sound(init) && Tracks(init) && AllDelivered(init) && Reassembled(init.rx)
    requires Run(digest, init, events).Some? && o < |Run(digest, init, events).value.table.objs|
    ensures var s := Run(digest, init, events).value;
            Announced(s.table.objs[o], o, s.rx)
  {
    hide Sound, Tracks, Reassembled, Run;
    DeliveryRuns(digest, init, events);
    var s := Run(digest, init, events).value;
    assert Delivered(s.table.objs[o], o, s.table.Attached(o), s.rx);
  }

  // ---- Only a terminated session ends streams ----

  /** While the session is not terminated, it has ended no stream and is not about to. */
  ghost predicate Winding(s: Session)
  {
    !s.Terminated() ==>
      && (forall t :: t in s.tasks ==> !t.CloseBySession? && !t.UndoOpen? && !t.Drain?)
      && (forall o :: 0 <= o < |s.table.objs| ==> s.table.objs[o].closedBy != Some(SessionEnd))
  }

  lemma WindingOne(s: Session, o: nat)
    requires Winding(s) && o < |s.table.objs|
    ensures s.table.objs[o].closedBy == Some(SessionEnd) ==> s.Terminated()
  {
  }

  lemma WindingCall(s: Session, call: Call)
    requires Winding(s) && CallPossible(s, call)
    ensures Winding(CallStep(s, call))
  {
    hide Apply, Enabled;
  }

  lemma WindingOpenTask(s: Session, t: Task)
    requires Winding(s) && IsOpenTask(t) && TaskInRange(t, |s.table.objs|) && (t.UndoOpen? ==> s.Terminated())
    ensures Winding(OpenTaskStep(s, t))
  {
    hide Ascii;
  }

  lemma WindingCloseTask(s: Session, t: Task)
    requires Winding(s) && !IsOpenTask(t) && TaskInRange(t, |s.table.objs|)
    requires t.CloseBySession? || t.Drain? ==> s.Terminated()
    ensures Winding(CloseTaskStep(s, t))
  {
    hide Apply, CloseTaskStep;
    CloseTaskObjs(s, t);
    CloseTaskSpawns(s, t);
  }

  /** What the next section of a close leaves to do. */
  lemma CloseTaskSpawns(s: Session, t: Task)
    requires !IsOpenTask(t) && TaskInRange(t, |s.table.objs|)
    ensures var s' := CloseTaskStep(s, t);
            && s'.Terminated() == s.Terminated()
            && forall u :: u in s'.tasks ==>
                 u in s.tasks || t.Drain? || u.NotifyIdle? || u.FinishPipe? || u.ClosePipe? || u.SendFin?
  {
    hide Apply, Doomed;
    match t
    case CloseBySession(o, error) => return;
    case RemoveSelf(o) => return;
    case Drain => return;
    case _ => return;
  }

  /** Steps that neither end a stream nor terminate the session. */
  lemma WindingSame(s: Session, s': Session)
    requires Winding(s) && s'.Terminated() == s.Terminated() && |s.table.objs| <= |s'.table.objs|
    requires s'.tasks == s.tasks || s'.tasks == s.tasks + multiset{NotifyIdle}
    requires forall o :: 0 <= o < |s'.table.objs| && s'.table.objs[o].closedBy == Some(SessionEnd) ==>
               o < |s.table.objs| && s.table.objs[o].closedBy == Some(SessionEnd)
    ensures Winding(s')
  {
  }

  lemma ActionAlive(s: Session, action: Action, acked: bool)
    ensures ActionStep(s, action, acked).Terminated() == s.Terminated()
  {
    hide Ascii;
  }

  lemma WindingAction(s: Session, action: Action, acked: bool)
    requires Winding(s)
    ensures Winding(ActionStep(s, action, acked))
  {
    hide ActionStep, Winding;
    ActionRx(s, action, acked);
    ActionTasks(s, action, acked);
    ActionAlive(s, action, acked);
    WindingSame(s, ActionStep(s, action, acked));
  }

  lemma ContinueAlive(s: Session, at: At)
    requires AtInRange(at, |s.table.objs|) && !at.Next? && !at.Stopped?
    ensures var s' := if IsPush(at) then PushStep(s, at) else LifeStep(s, at);
            s'.Terminated() == s.Terminated() && |s.table.objs| <= |s'.table.objs| <= |s.table.objs| + 1
  {
    hide Apply, Accepts;
  }

  lemma ContinueEnds(s: Session, at: At, o: nat)
    requires AtInRange(at, |s.table.objs|) && !at.Next? && !at.Stopped?
    ensures var s' := if IsPush(at) then PushStep(s, at) else LifeStep(s, at);
            o < |s'.table.objs| && s'.table.objs[o].closedBy == Some(SessionEnd) ==>
              o < |s.table.objs| && s.table.objs[o].closedBy == Some(SessionEnd)
  {
    hide PushStep, LifeStep;
    ContinueClosedBy(s, at, o);
  }

  /** A section of the receive loop closes a stream only on behalf of the peer. */
  lemma ContinueClosedBy(s: Session, at: At, o: nat)
    requires AtInRange(at, |s.table.objs|) && !at.Next? && !at.Stopped?
    ensures var objs, objs' := s.table.objs, (if IsPush(at) then PushStep(s, at) else LifeStep(s, at)).table.objs;
            && |objs| <= |objs'|
            && (o < |objs| ==> objs'[o].closedBy == objs[o].closedBy || objs'[o].closedBy == Some(Peer))
            && (|objs| <= o < |objs'| ==> !objs'[o].Closed())
  {
    hide Apply, Accepts;
    match at
    case PushFound(p, data) => return;
    case PushChecked(p, data) => return;
    case PushPipe(p, data) => return;
    case PushFailed(p) => return;
    case Creating(sid) => return;
    case PeerRemoved(p, error) => return;
    case PeerFinish(p, error) => return;
  }

  lemma WindingContinue(s: Session, at: At)
    requires Winding(s) && AtInRange(at, |s.table.objs|) && !at.Next? && !at.Stopped?
    ensures Winding(if IsPush(at) then PushStep(s, at) else LifeStep(s, at))
  {
    hide PushStep, LifeStep, Winding;
    var s' := if IsPush(at) then PushStep(s, at) else LifeStep(s, at);
    ContinueTasks(s, at);
    ContinueAlive(s, at);
    forall o | 0 <= o < |s'.table.objs| && s'.table.objs[o].closedBy == Some(SessionEnd)
      ensures o < |s.table.objs| && s.table.objs[o].closedBy == Some(SessionEnd)
    {
      ContinueEnds(s, at, o);
    }
    WindingSame(s, s');
  }

  lemma WindingStep(digest: Text -> Text, s: Session, ev: Event)
    requires Winding(s) && Possible(s, ev)
    ensures Winding(Step(digest, s, ev))
  {
    hide CallStep, OpenTaskStep, CloseTaskStep, ActionStep, PushStep, LifeStep, HandleFrame;
    match ev
    case Api(call) => WindingCall(s, call);
    case RunTask(t) =>
      var s' := s.(tasks := s.tasks - multiset{t});
      if IsOpenTask(t) {
        WindingOpenTask(s', t);
      } else {
        WindingCloseTask(s', t);
      }
    case Receive(progress) =>
      match progress
      case Act(acked) => WindingAction(s.(rx := s.rx.(todo := s.rx.todo[1..])), s.rx.todo[0], acked);
      case Continue => WindingContinue(s, s.rx.at);
      case _ =>
  }

  /** In every run of either end, a stream ended by the session means that it is terminated. */
  lemma {:induction false} WindingRuns(digest: Text -> Text, init: Session, events: seq<Event>)
    requires Winding(init) && Run(digest, init, events).Some?
    ensures Winding(Run(digest, init, events).value)
  {
    hide Step, Winding;
    if events != [] {
      var front := events[..|events| - 1];
      WindingRuns(digest, init, front);
      WindingStep(digest, Run(digest, init, front).value, events[|events| - 1]);
    }
  }

  /** A stream is closed locally only by a call of `close` on it. */
  lemma OnlyTheHolderCloses(digest: Text -> Text, s: Session, ev: Event, o: nat)
    requires Sound(s) && Possible(s, ev) && o < |s.table.objs| && s.table.objs[o].closedBy != Some(Local)
    ensures o < |Step(digest, s, ev).table.objs|
    ensures Step(digest, s, ev).table.objs[o].closedBy == Some(Local) ==> ev == Api(CloseStream(o))
  {
    hide Sound, Grows, CallStep, OpenTaskStep, CloseTaskStep, ReceiveStep;
    StepKeeps(digest, s, ev);
    GrowsLength(s.table.objs, Step(digest, s, ev).table.objs);
    match ev
    case Api(call) => CallCloses(s, call, o);
    case RunTask(t) =>
      if IsOpenTask(t) {
        OpenTaskCloses(s.(tasks := s.tasks - multiset{t}), t, o);
      } else {
        CloseTaskCloses(s.(tasks := s.tasks - multiset{t}), t, o);
      }
    case Receive(progress) => ReceiveCloses(digest, s, progress, o);
  }

  lemma GrowsLength(a: seq<Stream>, b: seq<Stream>)
    requires Grows(a, b)
    ensures |a| <= |b|
  {
  }

  lemma CallCloses(s: Session, call: Call, o: nat)
    requires CallPossible(s, call) && o < |s.table.objs| && s.table.objs[o].closedBy != Some(Local)
    ensures o < |CallStep(s, call).table.objs|
    ensures CallStep(s, call).table.objs[o].closedBy == Some(Local) ==> call == CloseStream(o)
  {
    hide Apply, Enabled;
  }

  lemma OpenTaskCloses(s: Session, t: Task, o: nat)
    requires IsOpenTask(t) && TaskInRange(t, |s.table.objs|)
    requires o < |s.table.objs| && s.table.objs[o].closedBy != Some(Local)
    ensures var s' := OpenTaskStep(s, t);
            o < |s'.table.objs| && s'.table.objs[o].closedBy != Some(Local)
  {
    hide OpenTaskStep;
    OpenTaskEnds(s, t, o);
  }

  lemma CloseTaskCloses(s: Session, t: Task, o: nat)
    requires !IsOpenTask(t) && TaskInRange(t, |s.table.objs|)
    requires o < |s.table.objs| && s.table.objs[o].closedBy != Some(Local)
    ensures var s' := CloseTaskStep(s, t);
            o < |s'.table.objs| && s'.table.objs[o].closedBy != Some(Local)
  {
    hide Apply, CloseTaskStep;
    CloseTaskObjs(s, t);
  }

  lemma ReceiveCloses(digest: Text -> Text, s: Session, progress: Progress, o: nat)
    requires ProgressPossible(s, progress) && o < |s.table.objs| && s.table.objs[o].closedBy != Some(Local)
    ensures var s' := ReceiveStep(digest, s, progress);
            o < |s'.table.objs| && s'.table.objs[o].closedBy != Some(Local)
  {
    hide HandleFrame, ActionStep, PushStep, LifeStep, Decode;
    match progress
    case Act(acked) => ActionRx(s.(rx := s.rx.(todo := s.rx.todo[1..])), s.rx.todo[0], acked);
    case Continue => ContinueCloses(s, s.rx.at, o);
    case _ =>
  }

  lemma ContinueCloses(s: Session, at: At, o: nat)
    requires AtInRange(at, |s.table.objs|) && !at.Next? && !at.Stopped?
    requires o < |s.table.objs| && s.table.objs[o].closedBy != Some(Local)
    ensures var s' := if IsPush(at) then PushStep(s, at) else LifeStep(s, at);
            o < |s'.table.objs| && s'.table.objs[o].closedBy != Some(Local)
  {
    hide PushStep, LifeStep;
    ContinueClosedBy(s, at, o);
  }

  // ---- Every close gets its FIN ----

  /** FINs that stream `o` is on its way to queue. */
  ghost function FinsComing(s: Session, o: nat): nat { s.tasks[RemoveSelf(o)] + s.tasks[SendFin(o)] }

  lemma CallFins(s: Session, call: Call, o: nat)
    requires CallPossible(s, call)
    ensures var s' := CallStep(s, call);
            && FinsComing(s', o)
               == FinsComing(s, o) + (if call == CloseStream(o) && !s.table.objs[o].Closed() then 1 else 0)
            && s'.channel.finLog == s.channel.finLog && (!s'.channel.gone ==> !s.channel.gone)
  {
    hide Apply, Enabled;
  }

  lemma OpenTaskFins(s: Session, t: Task, o: nat)
    requires IsOpenTask(t) && TaskInRange(t, |s.table.objs|)
    ensures var s' := OpenTaskStep(s, t);
            FinsComing(s', o) == FinsComing(s, o) && s'.channel.finLog == s.channel.finLog && s'.channel.gone == s.channel.gone
  {
    hide Ascii;
  }

  lemma CloseTaskFins(s: Session, t: Task, o: nat)
    requires !IsOpenTask(t) && TaskInRange(t, |s.table.objs|)
    ensures var s' := CloseTaskStep(s, t);
            && FinsComing(s', o) == FinsComing(s, o) + (if t == RemoveSelf(o) then 1 else 0)
            && s'.channel.finLog == s.channel.finLog + (if t.SendFin? && !s.channel.gone then [t.o] else [])
            && s'.channel.gone == s.channel.gone
  {
    hide Apply;
    assert RemoveSelf(o) !in Doomed(s.table.streams) && SendFin(o) !in Doomed(s.table.streams);
  }

  lemma ReceiveFins(digest: Text -> Text, s: Session, progress: Progress, o: nat)
    requires ProgressPossible(s, progress)
    ensures var s' := ReceiveStep(digest, s, progress);
            FinCount(s', o) == FinCount(s, o) && s'.channel.gone == s.channel.gone
  {
    hide ReceiveStep;
    ReceiveTasks(digest, s, progress);
    ReceiveGone(digest, s, progress);
  }

  lemma LoggedFins(finLog: seq<nat>, t: Task, o: nat)
    ensures multiset(finLog + if t.SendFin? then [t.o] else [])[o] == multiset(finLog)[o] + if t == SendFin(o) then 1 else 0
  {
    assert finLog + [] == finLog;
  }

  /** While the writer lives, only the close of a stream owes a FIN, and no FIN owed gets lost. */
  lemma FinLaw(digest: Text -> Text, s: Session, ev: Event, o: nat)
    requires Possible(s, ev) && !Step(digest, s, ev).channel.gone
    ensures !s.channel.gone
    ensures FinCount(Step(digest, s, ev), o) ==
            FinCount(s, o) +
            if ev == Api(CloseStream(o)) && o < |s.table.objs| && !s.table.objs[o].Closed() then 1 else 0
  {
    hide CallStep, OpenTaskStep, CloseTaskStep, ReceiveStep;
    match ev
    case Api(call) => CallFins(s, call, o);
    case RunTask(t) =>
      var s' := s.(tasks := s.tasks - multiset{t});
      if IsOpenTask(t) {
        OpenTaskFins(s', t, o);
      } else {
        CloseTaskFins(s', t, o);
        LoggedFins(s.channel.finLog, t, o);
      }
    case Receive(progress) => ReceiveFins(digest, s, progress, o);
  }

  /** In every run, while the writer lives, a stream has exactly one FIN queued or on its way if its own
      side closed it, and none otherwise. */
  lemma {:induction false} FinExactly(digest: Text -> Text, init: Session, events: seq<Event>, o: nat)
    requires Sound(init) && FinOnce(init) && init.table.objs == []
    requires Run(digest, init, events).Some? && o < |Run(digest, init, events).value.table.objs|
    requires !Run(digest, init, events).value.channel.gone
    ensures var s := Run(digest, init, events).value;
            FinCount(s, o) == if s.table.objs[o].closedBy == Some(Local) then 1 else 0
  {
    hide Step, Possible, Sound, FinOnce, FinCount, GrowsOne;
    var front, ev := events[..|events| - 1], events[|events| - 1];
    var s := Run(digest, init, front).value;
    RunsSound(digest, init, front);
    FinRuns(digest, init, front);
    FinLaw(digest, s, ev, o);
    StepKeeps(digest, s, ev);
    if o < |s.table.objs| {
      FinExactly(digest, init, front, o);
      LocalClose(digest, s, ev, o);
    } else {
      NoFinYet(s, o);
      NewIsOpen(digest, s, ev, o);
    }
  }

  lemma NoFinYet(s: Session, o: nat)
    requires Sound(s) && FinOnce(s) && o >= |s.table.objs|
    ensures FinCount(s, o) == 0
  {
    hide TableOk, AtOk, TodoOk;
    NoneOutOfRange(s, o);
  }

  lemma NewIsOpen(digest: Text -> Text, s: Session, ev: Event, o: nat)
    requires Possible(s, ev) && |s.table.objs| <= o < |Step(digest, s, ev).table.objs|
    ensures !Step(digest, s, ev).table.objs[o].Closed()
  {
    hide Step, Possible;
    StepCreates(digest, s, ev, o);
  }

  /** A stream is closed locally exactly if it was or this event closes it. */
  lemma LocalClose(digest: Text -> Text, s: Session, ev: Event, o: nat)
    requires Sound(s) && Possible(s, ev) && o < |s.table.objs|
    ensures o < |Step(digest, s, ev).table.objs|
    ensures Step(digest, s, ev).table.objs[o].closedBy == Some(Local) <==>
              s.table.objs[o].closedBy == Some(Local) || (ev == Api(CloseStream(o)) && !s.table.objs[o].Closed())
  {
    hide Sound, OpenTaskStep, CloseTaskStep, ReceiveStep;
    if s.table.objs[o].closedBy == Some(Local) {
      StepKeeps(digest, s, ev);
      assert GrowsOne(s.table.objs[o], Step(digest, s, ev).table.objs[o]);
    } else {
      OnlyTheHolderCloses(digest, s, ev, o);
    }
  }

  // ---- Every close ends the pipe ----

  ghost predicate FinishComing(s: Session, o: nat) { exists error :: FinishPipe(o, error) in s.tasks }

  /** The pipe of a closed stream is ended or about to be: with an end marker if the session closed the
      stream, and at once if its own side did. */
  ghost predicate Ending(s: Session, o: nat)
    requires o < |s.table.objs|
  {
    var x := s.table.objs[o];
    && (x.closedBy == Some(SessionEnd) ==> x.pipe.endQueued || FinishComing(s, o))
    && (x.closedBy == Some(Local) ==> x.pipe.closedLocally || RemoveSelf(o) in s.tasks || ClosePipe(o) in s.tasks)
  }

  lemma CallTaskStays(s: Session, call: Call, t: Task)
    requires CallPossible(s, call) && t in s.tasks
    ensures t in CallStep(s, call).tasks
  {
    hide Apply, Enabled;
  }

  lemma OpenTaskStays(s: Session, u: Task, t: Task)
    requires IsOpenTask(u) && TaskInRange(u, |s.table.objs|) && t in s.tasks
    ensures t in OpenTaskStep(s, u).tasks
  {
    hide Ascii;
  }

  lemma CloseTaskStays(s: Session, u: Task, t: Task)
    requires !IsOpenTask(u) && TaskInRange(u, |s.table.objs|) && t in s.tasks
    ensures t in CloseTaskStep(s, u).tasks
  {
    hide Apply, Doomed;
  }

  /** A pending task stays until it runs. */
  lemma TaskStays(digest: Text -> Text, s: Session, ev: Event, t: Task)
    requires Possible(s, ev) && t in s.tasks && ev != RunTask(t)
    ensures t in Step(digest, s, ev).tasks
  {
    hide CallStep, OpenTaskStep, CloseTaskStep, ReceiveStep;
    match ev
    case Api(call) => CallTaskStays(s, call, t);
    case RunTask(u) =>
      if IsOpenTask(u) {
        OpenTaskStays(s.(tasks := s.tasks - multiset{u}), u, t);
      } else {
        CloseTaskStays(s.(tasks := s.tasks - multiset{u}), u, t);
      }
    case Receive(progress) => ReceiveTasks(digest, s, progress);
  }

  lemma OpenTaskEnds(s: Session, t: Task, o: nat)
    requires IsOpenTask(t) && TaskInRange(t, |s.table.objs|) && o < |s.table.objs|
    ensures o < |OpenTaskStep(s, t).table.objs|
    ensures OpenTaskStep(s, t).table.objs[o].closedBy == s.table.objs[o].closedBy
  {
    hide OpenTaskStep, Blank;
    OpenTaskObjs(s, t);
  }

  lemma CloseTaskEnds(s: Session, t: Task, o: nat)
    requires !IsOpenTask(t) && TaskInRange(t, |s.table.objs|) && o < |s.table.objs|
    requires s.table.objs[o].closedBy != Some(SessionEnd)
    ensures var s' := CloseTaskStep(s, t);
            o < |s'.table.objs| && (s'.table.objs[o].closedBy == Some(SessionEnd) ==> FinishComing(s', o))
  {
    hide Apply, Doomed;
    var s' := CloseTaskStep(s, t);
    if t.CloseBySession? && t.o == o && !s.table.objs[o].Closed() {
      assert FinishPipe(o, t.error) in s'.tasks;
    }
  }

  lemma CallEnds(s: Session, call: Call, o: nat)
    requires CallPossible(s, call) && o < |s.table.objs| && s.table.objs[o].closedBy != Some(SessionEnd)
    ensures o < |CallStep(s, call).table.objs| && CallStep(s, call).table.objs[o].closedBy != Some(SessionEnd)
  {
    hide Apply, Enabled;
    match call
    case CloseStream(p) => return;
    case ReadStream(p, step) => return;
    case _ => return;
  }

  lemma ReceiveEnds(digest: Text -> Text, s: Session, progress: Progress, o: nat)
    requires ProgressPossible(s, progress) && o < |s.table.objs| && s.table.objs[o].closedBy != Some(SessionEnd)
    requires o < |ReceiveStep(digest, s, progress).table.objs|
    ensures ReceiveStep(digest, s, progress).table.objs[o].closedBy != Some(SessionEnd)
  {
    hide HandleFrame, ActionStep, PushStep, LifeStep, Decode;
    match progress
    case Act(acked) => ActionRx(s.(rx := s.rx.(todo := s.rx.todo[1..])), s.rx.todo[0], acked);
    case Continue => ContinueEnds(s, s.rx.at, o);
    case _ =>
  }

  /** The session closes a stream only together with an end marker on its way. */
  lemma EndedTogether(digest: Text -> Text, s: Session, ev: Event, o: nat)
    requires Possible(s, ev) && o < |s.table.objs| && s.table.objs[o].closedBy != Some(SessionEnd)
    ensures o < |Step(digest, s, ev).table.objs|
    ensures Step(digest, s, ev).table.objs[o].closedBy == Some(SessionEnd) ==> FinishComing(Step(digest, s, ev), o)
  {
    hide CallStep, OpenTaskStep, CloseTaskStep, ReceiveStep, FinishComing, Step, Possible;
    StepTouches(digest, s, ev, o);
    EndedByEvent(digest, s, ev, o);
  }

  lemma EndedByEvent(digest: Text -> Text, s: Session, ev: Event, o: nat)
    requires Possible(s, ev) && o < |s.table.objs| && s.table.objs[o].closedBy != Some(SessionEnd)
    requires o < |Step(digest, s, ev).table.objs|
    ensures Step(digest, s, ev).table.objs[o].closedBy == Some(SessionEnd) ==> FinishComing(Step(digest, s, ev), o)
  {
    hide CallStep, OpenTaskStep, CloseTaskStep, ReceiveStep, FinishComing;
    match ev
    case Api(call) => CallEnds(s, call, o);
    case RunTask(t) =>
      if IsOpenTask(t) {
        OpenTaskEnds(s.(tasks := s.tasks - multiset{t}), t, o);
      } else {
        CloseTaskEnds(s.(tasks := s.tasks - multiset{t}), t, o);
      }
    case Receive(progress) => ReceiveEnds(digest, s, progress, o);
  }

  /** A pending finish, once it runs, ends the pipe. */
  lemma FinishRuns(x: Stream, error: Option<Error>)
    requires StreamOk(x) && x.closedBy == Some(SessionEnd)
    ensures Apply(x.pipe, Finish(error)).endQueued
  {
  }

  lemma EndingFinish(digest: Text -> Text, s: Session, ev: Event, o: nat, error: Option<Error>)
    requires Sound(s) && Possible(s, ev) && o < |s.table.objs| && s.table.objs[o].closedBy == Some(SessionEnd)
    requires FinishPipe(o, error) in s.tasks
    ensures o < |Step(digest, s, ev).table.objs|
    ensures Step(digest, s, ev).table.objs[o].pipe.endQueued || FinishPipe(o, error) in Step(digest, s, ev).tasks
  {
    assert StreamOk(s.table.objs[o]);
    hide Sound, StreamOk, Step, Possible, Apply, Enabled;
    StepTouches(digest, s, ev, o);
    if ev == RunTask(FinishPipe(o, error)) {
      FinishRuns(s.table.objs[o], error);
    } else {
      TaskStays(digest, s, ev, FinishPipe(o, error));
    }
  }

  lemma RemoveSelfLeads(digest: Text -> Text, s: Session, o: nat)
    requires Possible(s, RunTask(RemoveSelf(o)))
    ensures ClosePipe(o) in Step(digest, s, RunTask(RemoveSelf(o))).tasks
  {
  }

  lemma CloseLeads(digest: Text -> Text, s: Session, o: nat)
    requires Possible(s, Api(CloseStream(o))) && !s.table.objs[o].Closed()
    ensures RemoveSelf(o) in Step(digest, s, Api(CloseStream(o))).tasks
  {
  }

  lemma EndingLocal(digest: Text -> Text, s: Session, ev: Event, o: nat)
    requires Sound(s) && Possible(s, ev) && o < |s.table.objs| && Ending(s, o)
    requires o < |Step(digest, s, ev).table.objs| && Step(digest, s, ev).table.objs[o].closedBy == Some(Local)
    ensures var s' := Step(digest, s, ev);
            s'.table.objs[o].pipe.closedLocally || RemoveSelf(o) in s'.tasks || ClosePipe(o) in s'.tasks
  {
    hide Sound, Step, Possible, Apply, Enabled, FinishComing;
    LocalClose(digest, s, ev, o);
    StepTouches(digest, s, ev, o);
    if s.table.objs[o].closedBy != Some(Local) {
      CloseLeads(digest, s, o);
    } else if s.table.objs[o].pipe.closedLocally || ev == RunTask(ClosePipe(o)) {
      if Touch(s, ev, o).Some? {
        CloseStays(s.table.objs[o].pipe, Touch(s, ev, o).value);
      }
    } else if ev == RunTask(RemoveSelf(o)) {
      RemoveSelfLeads(digest, s, o);
    } else if RemoveSelf(o) in s.tasks {
      TaskStays(digest, s, ev, RemoveSelf(o));
    } else {
      TaskStays(digest, s, ev, ClosePipe(o));
    }
  }

  lemma EndingStep(digest: Text -> Text, s: Session, ev: Event, o: nat)
    requires Sound(s) && Possible(s, ev) && o < |s.table.objs| && Ending(s, o)
    ensures o < |Step(digest, s, ev).table.objs| && Ending(Step(digest, s, ev), o)
  {
    hide Sound, Step, Possible;
    var x, s' := s.table.objs[o], Step(digest, s, ev);
    StepKeeps(digest, s, ev);
    assert GrowsOne(x, s'.table.objs[o]);
    if s'.table.objs[o].closedBy == Some(Local) {
      EndingLocal(digest, s, ev, o);
    } else if x.closedBy != Some(SessionEnd) {
      EndedTogether(digest, s, ev, o);
    } else if !x.pipe.endQueued {
      var error :| FinishPipe(o, error) in s.tasks;
      EndingFinish(digest, s, ev, o, error);
    }
  }

  /** In every run of either end, the pipe of a stream that its session or its own side closed has been
      ended or is about to be, so no reader waits for ever. */
  lemma {:induction false} EndingRuns(digest: Text -> Text, init: Session, events: seq<Event>, o: nat)
    requires Sound(init) && init.table.objs == []
    requires Run(digest, init, events).Some? && o < |Run(digest, init, events).value.table.objs|
    ensures Ending(Run(digest, init, events).value, o)
  {
    hide Step, Possible, Sound, FinishComing;
    var front, ev := events[..|events| - 1], events[|events| - 1];
    var s := Run(digest, init, front).value;
    RunsSound(digest, init, front);
    if o < |s.table.objs| {
      EndingRuns(digest, init, front, o);
      EndingStep(digest, s, ev, o);
    } else {
      NewIsOpen(digest, s, ev, o);
    }
  }
}
