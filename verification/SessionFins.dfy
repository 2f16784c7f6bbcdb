/** Each stream queues at most one FIN, and none when the peer's FIN came first. */
module SessionFins {
  import opened Options
  import opened Texts
  import opened Frames
  import opened Engine
  import opened Pipes
  import opened Sessions
  import opened SessionSafety

  /** FINs stream `o` has queued or is on its way to queue. */
  ghost function FinCount(s: Session, o: nat): nat
  {
    multiset(s.channel.finLog)[o] + s.tasks[RemoveSelf(o)] + s.tasks[SendFin(o)]
  }

  /** At most one, and only if the local close won the race for the stream. */
  ghost predicate FinOnce(s: Session)
  {
    && (forall o :: 0 <= o < |s.table.objs| ==> FinCount(s, o) <= if s.table.objs[o].closedBy == Some(Local) then 1 else 0)
    && (forall i :: 0 <= i < |s.channel.finLog| ==> s.channel.finLog[i] < |s.table.objs|)
  }

  /** Steps that spawn no FIN keep the count. */
  lemma FinSame(s: Session, s': Session)
    requires FinOnce(s) && Sound(s) && Grows(s.table.objs, s'.table.objs)
    requires s'.channel.finLog == s.channel.finLog
    requires forall t :: t in s'.tasks && (t.RemoveSelf? || t.SendFin?) ==> s'.tasks[t] <= s.tasks[t]
    ensures FinOnce(s')
  {
    hide TableOk, AtOk, TodoOk;
    forall o | 0 <= o < |s'.table.objs|
      ensures FinCount(s', o) <= if s'.table.objs[o].closedBy == Some(Local) then 1 else 0
    {
      assert s'.tasks[RemoveSelf(o)] <= s.tasks[RemoveSelf(o)] && s'.tasks[SendFin(o)] <= s.tasks[SendFin(o)];
      if o < |s.table.objs| {
        assert GrowsOne(s.table.objs[o], s'.table.objs[o]);
      } else {
        NoneOutOfRange(s, o);
      }
    }
  }

  lemma NoneOutOfRange(s: Session, o: nat)
    requires FinOnce(s) && TasksOk(s.table.objs, s.tasks) && o >= |s.table.objs|
    ensures FinCount(s, o) == 0
  {
    assert !TaskInRange(RemoveSelf(o), |s.table.objs|) && !TaskInRange(SendFin(o), |s.table.objs|);
    assert o !in s.channel.finLog;
  }

  /** The compare-and-set of a local close is what a FIN springs from. */
  lemma FinClose(s: Session, o: nat)
    requires FinOnce(s) && o < |s.table.objs| && !s.table.objs[o].Closed()
    ensures FinOnce(s.MarkClosed(o, Local).Spawn(multiset{RemoveSelf(o)}))
  {
    var s' := s.MarkClosed(o, Local).Spawn(multiset{RemoveSelf(o)});
    forall p | 0 <= p < |s.table.objs|
      ensures FinCount(s', p) <= if s'.table.objs[p].closedBy == Some(Local) then 1 else 0
    {
      assert FinCount(s, p) <= if s.table.objs[p].closedBy == Some(Local) then 1 else 0;
    }
  }

  lemma FinCall(s: Session, call: Call)
    requires FinOnce(s) && Sound(s) && CallPossible(s, call)
    ensures FinOnce(CallStep(s, call))
  {
    hide Sound, FinOnce, Grows, Apply, Enabled;
    if call.CloseStream? {
      if !s.table.objs[call.o].Closed() {
        FinClose(s, call.o);
      }
    } else {
      CallKeeps(s, call);
      FinSame(s, CallStep(s, call));
    }
  }

  lemma FinOpenTask(s: Session, t: Task)
    requires FinOnce(s) && Sound(s) && IsOpenTask(t) && TaskOk(s.table.objs, t)
    ensures FinOnce(OpenTaskStep(s, t))
  {
    hide Sound, FinOnce, Grows, Ascii;
    OpenTaskKeeps(s, t);
    FinSame(s, OpenTaskStep(s, t));
  }

  /** A FIN task that was taken off the list moves on to the next stage or to the queue. */
  lemma FinMoves(s: Session, s': Session, o: nat)
    requires FinOnce(s) && o < |s.table.objs| && s.table.objs[o].closedBy == Some(Local) && FinCount(s, o) == 0
    requires s'.table.objs == s.table.objs && FinCount(s', o) <= 1
    requires forall p :: 0 <= p < |s.table.objs| && p != o ==> FinCount(s', p) == FinCount(s, p)
    requires s'.channel.finLog == s.channel.finLog || s'.channel.finLog == s.channel.finLog + [o]
    ensures FinOnce(s')
  {
  }

  lemma FinRemoveSelf(s: Session, o: nat)
    requires FinOnce(s) && TaskOk(s.table.objs, RemoveSelf(o)) && FinCount(s, o) == 0
    ensures FinOnce(CloseTaskStep(s, RemoveSelf(o)))
  {
    hide FinOnce;
    FinMoves(s, CloseTaskStep(s, RemoveSelf(o)), o);
  }

  lemma FinSend(s: Session, o: nat)
    requires FinOnce(s) && TaskOk(s.table.objs, SendFin(o)) && FinCount(s, o) == 0
    ensures FinOnce(CloseTaskStep(s, SendFin(o)))
  {
    hide FinOnce;
    FinMoves(s, CloseTaskStep(s, SendFin(o)), o);
  }

  lemma FinCloseTask(s: Session, t: Task)
    requires FinOnce(s) && Sound(s) && !IsOpenTask(t) && TaskOk(s.table.objs, t)
    requires t.RemoveSelf? || t.SendFin? ==> FinCount(s, t.o) == 0
    ensures FinOnce(CloseTaskStep(s, t))
  {
    hide Sound, FinOnce, FinCount, Grows, Apply;
    if t.RemoveSelf? {
      FinRemoveSelf(s, t.o);
    } else if t.SendFin? {
      FinSend(s, t.o);
    } else {
      CloseTaskKeeps(s, t);
      FinSame(s, CloseTaskStep(s, t));
    }
  }

  lemma ReceiveTasks(digest: Text -> Text, s: Session, progress: Progress)
    requires ProgressPossible(s, progress)
    ensures var s' := ReceiveStep(digest, s, progress);
            && s'.channel.finLog == s.channel.finLog
            && (s'.tasks == s.tasks || s'.tasks == s.tasks + multiset{NotifyIdle})
  {
    hide ActionStep, PushStep, LifeStep, HandleFrame, Decode;
    match progress
    case Act(acked) => ActionTasks(s.(rx := s.rx.(todo := s.rx.todo[1..])), s.rx.todo[0], acked); return;
    case Continue => ContinueTasks(s, s.rx.at); return;
    case _ => return;
  }

  lemma ActionTasks(s: Session, action: Action, acked: bool)
    ensures var s' := ActionStep(s, action, acked);
            && s'.channel.finLog == s.channel.finLog
            && (s'.tasks == s.tasks || s'.tasks == s.tasks + multiset{NotifyIdle})
  {
    hide Ascii;
  }

  lemma ContinueTasks(s: Session, at: At)
    requires AtInRange(at, |s.table.objs|) && !at.Next? && !at.Stopped?
    ensures var s' := if IsPush(at) then PushStep(s, at) else LifeStep(s, at);
            s'.channel.finLog == s.channel.finLog && s'.tasks == s.tasks
  {
    hide Apply, Accepts;
  }

  lemma FinStep(digest: Text -> Text, s: Session, ev: Event)
    requires FinOnce(s) && Sound(s) && Possible(s, ev)
    ensures FinOnce(Step(digest, s, ev))
  {
    hide Sound, Grows, CallStep, OpenTaskStep, CloseTaskStep, ReceiveStep;
    match ev
    case Api(call) => FinCall(s, call);
    case RunTask(t) =>
      var s' := s.(tasks := s.tasks - multiset{t});
      TaskFacts(s, t);
      SameKeeps(s, s');
      FinSame(s, s');
      if IsOpenTask(t) {
        FinOpenTask(s', t);
      } else {
        assert t.RemoveSelf? || t.SendFin? ==> FinCount(s', t.o) == 0;
        FinCloseTask(s', t);
      }
    case Receive(progress) =>
      ReceiveTasks(digest, s, progress);
      SessionSafety.ReceiveKeeps(digest, s, progress);
      FinSame(s, ReceiveStep(digest, s, progress));
  }

  /** In every run each stream queues at most one FIN, and none unless its local close came before
      the peer's and before the end of the session. */
  lemma {:induction false} FinRuns(digest: Text -> Text, init: Session, events: seq<Event>)
    requires Sound(init) && FinOnce(init) && Run(digest, init, events).Some?
    ensures FinOnce(Run(digest, init, events).value)
  {
    hide Step, Possible, Sound, FinOnce;
    if events != [] {
      var front := events[..|events| - 1];
      FinRuns(digest, init, front);
      RunsSound(digest, init, front);
      FinStep(digest, Run(digest, init, front).value, events[|events| - 1]);
    }
  }
}
