/** The streams of a server session: each is born by a SYN of its own, one after another. */
module SessionServer {
  import opened Texts
  import opened Frames
  import opened Engine
  import opened Pipes
  import opened Sessions
  import opened SessionSafety
  import opened SessionReceive
  import opened SessionDelivery
  import SessionTermination

  // ---- Streams are born by their SYN ----

  ghost predicate BornBySyn(x: Stream, handled: seq<Frame>)
  {
    1 <= x.born <= |handled| && handled[x.born - 1].cmd.Syn? && handled[x.born - 1].sid == x.sid
  }

  ghost predicate AllBornBySyn(s: Session)
  {
    && !s.isClient && OpenLock !in s.tasks
    && forall o :: 0 <= o < |s.table.objs| ==> BornBySyn(s.table.objs[o], s.rx.handled)
  }

  lemma BornGrows(s: Session, s': Session)
    requires AllBornBySyn(s) && !s'.isClient && OpenLock !in s'.tasks
    requires Grows(s.table.objs, s'.table.objs) && |s'.table.objs| == |s.table.objs| && s.rx.handled <= s'.rx.handled
    ensures AllBornBySyn(s')
  {
    forall o | 0 <= o < |s'.table.objs|
      ensures BornBySyn(s'.table.objs[o], s'.rx.handled)
    {
      assert BornBySyn(s.table.objs[o], s.rx.handled) && GrowsOne(s.table.objs[o], s'.table.objs[o]);
    }
  }

  lemma BornCreate(s: Session)
    requires AllBornBySyn(s) && Tracks(s) && s.rx.at.Creating?
    ensures AllBornBySyn(LifeStep(s, s.rx.at))
  {
    hide AskedBy;
  }

  /** Everything except a creation leaves the number of streams and the past frames alone. */
  lemma OtherSteps(digest: Text -> Text, s: Session, ev: Event)
    requires !s.isClient && OpenLock !in s.tasks && Possible(s, ev) && (ev.Receive? ==> !s.rx.at.Creating?)
    ensures var s' := Step(digest, s, ev);
            && !s'.isClient && OpenLock !in s'.tasks && |s'.table.objs| == |s.table.objs| && s.rx.handled <= s'.rx.handled
  {
    match ev
    case Api(call) => OtherCall(s, call); return;
    case RunTask(t) => OtherTask(digest, s, t); return;
    case Receive(progress) => OtherReceive(digest, s, progress); return;
  }

  lemma OtherCall(s: Session, call: Call)
    requires !s.isClient && OpenLock !in s.tasks && CallPossible(s, call)
    ensures var s' := CallStep(s, call);
            && !s'.isClient && OpenLock !in s'.tasks && |s'.table.objs| == |s.table.objs| && s'.rx == s.rx
  {
    hide Apply, Enabled;
  }

  lemma OtherOpenTask(s: Session, t: Task)
    requires !s.isClient && OpenLock !in s.tasks && IsOpenTask(t) && !t.OpenLock? && TaskInRange(t, |s.table.objs|)
    ensures var s' := OpenTaskStep(s, t);
            && !s'.isClient && OpenLock !in s'.tasks && |s'.table.objs| == |s.table.objs| && s'.rx == s.rx
  {
    hide Ascii;
  }

  lemma OtherCloseTask(s: Session, t: Task)
    requires !s.isClient && OpenLock !in s.tasks && !IsOpenTask(t) && TaskInRange(t, |s.table.objs|)
    ensures var s' := CloseTaskStep(s, t);
            && !s'.isClient && OpenLock !in s'.tasks && |s'.table.objs| == |s.table.objs| && s'.rx == s.rx
  {
    hide Apply;
    if t.Drain? {
      assert OpenLock !in Doomed(s.table.streams);
    }
  }

  lemma OtherTask(digest: Text -> Text, s: Session, t: Task)
    requires !s.isClient && OpenLock !in s.tasks && Possible(s, RunTask(t))
    ensures var s' := Step(digest, s, RunTask(t));
            && !s'.isClient && OpenLock !in s'.tasks && |s'.table.objs| == |s.table.objs| && s'.rx == s.rx
  {
    hide OpenTaskStep, CloseTaskStep;
    if IsOpenTask(t) {
      OtherOpenTask(s.(tasks := s.tasks - multiset{t}), t);
    } else {
      OtherCloseTask(s.(tasks := s.tasks - multiset{t}), t);
    }
  }

  lemma OtherReceive(digest: Text -> Text, s: Session, progress: Progress)
    requires !s.isClient && OpenLock !in s.tasks && ProgressPossible(s, progress) && !s.rx.at.Creating?
    ensures var s' := ReceiveStep(digest, s, progress);
            && !s'.isClient && OpenLock !in s'.tasks && |s'.table.objs| == |s.table.objs| && s.rx.handled <= s'.rx.handled
  {
    hide HandleFrame, ActionStep, PushStep, LifeStep, Decode;
    match progress
    case TakeFrame => OtherFrame(digest, s.rx, s.isClient, Decode(s.rx.pending).value); return;
    case Act(acked) =>
      OtherAction(s.(rx := s.rx.(todo := s.rx.todo[1..])), s.rx.todo[0], acked);
      return;
    case Continue =>
      if IsPush(s.rx.at) {
        SessionTermination.PushTable(s, s.rx.at);
      } else {
        SessionTermination.LifeTable(s, s.rx.at);
      }
      OtherContinue(s, s.rx.at);
      ContinueRx(s, s.rx.at);
      return;
    case _ => return;
  }

  lemma OtherFrame(digest: Text -> Text, rx: Receiver, isClient: bool, f: Frame)
    requires HEADER_SIZE + |f.data| <= |rx.pending|
    ensures HandleFrame(digest, rx, isClient, f).handled == rx.handled + [f]
  {
    hide OnFrame;
  }

  lemma OtherAction(s: Session, action: Action, acked: bool)
    requires !s.isClient && OpenLock !in s.tasks
    ensures var s' := ActionStep(s, action, acked);
            && !s'.isClient && OpenLock !in s'.tasks && s'.table.objs == s.table.objs && s'.rx.handled == s.rx.handled
  {
    hide Ascii;
  }

  lemma OtherContinue(s: Session, at: At)
    requires AtInRange(at, |s.table.objs|) && !at.Next? && !at.Stopped? && !at.Creating?
    ensures (if IsPush(at) then PushStep(s, at) else LifeStep(s, at)).isClient == s.isClient
  {
    hide Apply, Accepts;
  }

  lemma BornStep(digest: Text -> Text, s: Session, ev: Event)
    requires AllBornBySyn(s) && Tracks(s) && Sound(s) && Possible(s, ev)
    ensures AllBornBySyn(Step(digest, s, ev))
  {
    hide Sound, Grows, BornBySyn, CallStep, OpenTaskStep, CloseTaskStep, HandleFrame, ActionStep, PushStep, LifeStep;
    if ev.Receive? && s.rx.at.Creating? {
      BornCreate(s);
    } else {
      StepKeeps(digest, s, ev);
      OtherSteps(digest, s, ev);
      BornGrows(s, Step(digest, s, ev));
    }
  }

  lemma {:induction false} BornRuns(digest: Text -> Text, init: Session, events: seq<Event>)
    requires Sound(init) && Tracks(init) && AllDelivered(init) && Reassembled(init.rx) && AllBornBySyn(init)
    requires Run(digest, init, events).Some?
    ensures AllBornBySyn(Run(digest, init, events).value)
  {
    hide Step, Possible, Sound, Tracks, AllDelivered, Reassembled, AllBornBySyn;
    if events != [] {
      var front, last := events[..|events| - 1], events[|events| - 1];
      BornRuns(digest, init, front);
      DeliveryRuns(digest, init, front);
      BornStep(digest, Run(digest, init, front).value, last);
    }
  }

  // ---- Streams are born one after another ----

  /** Later streams are born later; while a frame is being dealt with, all were born before it. */
  ghost predicate BornInOrder(s: Session)
  {
    var objs, n := s.table.objs, |s.rx.handled|;
    && (forall i, j :: 0 <= i < j < |objs| ==> objs[i].born < objs[j].born)
    && (forall i :: 0 <= i < |objs| ==> objs[i].born <= n)
    && (s.rx.at.Creating? || s.rx.todo != [] ==> forall i :: 0 <= i < |objs| ==> objs[i].born < n)
  }

  lemma OrderSame(s: Session, s': Session)
    requires BornInOrder(s) && Grows(s.table.objs, s'.table.objs) && |s'.table.objs| == |s.table.objs|
    requires |s.rx.handled| < |s'.rx.handled|
             || (|s.rx.handled| == |s'.rx.handled|
                 && (s'.rx.at.Creating? || s'.rx.todo != [] ==> s.rx.at.Creating? || s.rx.todo != []))
    ensures BornInOrder(s')
  {
    assert forall o :: 0 <= o < |s.table.objs| ==> GrowsOne(s.table.objs[o], s'.table.objs[o]);
  }

  lemma OrderCreate(s: Session)
    requires BornInOrder(s) && s.rx.at.Creating? && s.rx.todo == []
    ensures BornInOrder(LifeStep(s, s.rx.at))
  {
  }

  /** Only taking a frame gives the receive loop something to do. */
  lemma NothingNew(digest: Text -> Text, s: Session, progress: Progress)
    requires ProgressPossible(s, progress) && !s.rx.at.Creating?
    ensures var rx' := ReceiveStep(digest, s, progress).rx;
            || |s.rx.handled| < |rx'.handled|
            || (rx'.handled == s.rx.handled && (rx'.at.Creating? || rx'.todo != [] ==> s.rx.todo != []))
  {
    hide HandleFrame, ActionStep, PushStep, LifeStep, Decode;
    match progress
    case TakeFrame => OtherFrame(digest, s.rx, s.isClient, Decode(s.rx.pending).value); return;
    case Act(acked) =>
      ActionRx(s.(rx := s.rx.(todo := s.rx.todo[1..])), s.rx.todo[0], acked);
      return;
    case Continue => ContinueRx(s, s.rx.at); return;
    case _ => return;
  }

  lemma OrderStep(digest: Text -> Text, s: Session, ev: Event)
    requires BornInOrder(s) && AllBornBySyn(s) && Tracks(s) && Sound(s) && Possible(s, ev)
    ensures BornInOrder(Step(digest, s, ev))
  {
    hide Sound, Grows, BornBySyn, BornInOrder, CallStep, OpenTaskStep, CloseTaskStep, HandleFrame, ActionStep, PushStep, LifeStep;
    var s' := Step(digest, s, ev);
    if ev.Receive? && s.rx.at.Creating? {
      OrderCreate(s);
    } else {
      StepKeeps(digest, s, ev);
      OtherSteps(digest, s, ev);
      if ev.Receive? {
        NothingNew(digest, s, ev.progress);
      } else {
        OutsideRx(digest, s, ev);
      }
      OrderSame(s, s');
    }
  }

  /** In every run of a server, later streams are born later. */
  lemma {:induction false} OrderRuns(digest: Text -> Text, init: Session, events: seq<Event>)
    requires Sound(init) && Tracks(init) && AllDelivered(init) && Reassembled(init.rx) && AllBornBySyn(init)
    requires BornInOrder(init) && Run(digest, init, events).Some?
    ensures BornInOrder(Run(digest, init, events).value)
  {
    hide Step, Possible, Sound, Tracks, AllDelivered, Reassembled, AllBornBySyn, BornInOrder;
    if events != [] {
      var front, last := events[..|events| - 1], events[|events| - 1];
      OrderRuns(digest, init, front);
      DeliveryRuns(digest, init, front);
      BornRuns(digest, init, front);
      OrderStep(digest, Run(digest, init, front).value, last);
    }
  }
}
