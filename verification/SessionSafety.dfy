/** What every interleaving of session steps keeps. */
module SessionSafety {
  import opened Bytes
  import opened Options
  import opened Texts
  import opened Frames
  import opened Engine
  import opened Pipes
  import opened Sessions
  import StringMaps

  // ---- Streams only ever move forward ----

  ghost predicate GrowsOne(a: Stream, b: Stream)
  {
    && b.sid == a.sid && b.born == a.born
    && (a.Closed() ==> b.closedBy == a.closedBy)
    && (a.handed ==> b.handed)
    && (a.pipe.endQueued ==> b.pipe.endQueued && b.pipe.endError == a.pipe.endError)
  }

  /** Streams are never removed, renamed or reopened. */
  ghost predicate Grows(a: seq<Stream>, b: seq<Stream>)
  {
    |a| <= |b| && forall o :: 0 <= o < |a| ==> GrowsOne(a[o], b[o])
  }

  // ---- Sound sessions ----

  /** What has to hold of the stream a task is about. */
  ghost predicate TaskOk(objs: seq<Stream>, t: Task)
  {
    && TaskInRange(t, |objs|)
    && (t.FinishPipe? ==> objs[t.o].closedBy == Some(SessionEnd))
    && (t.RemoveSelf? || t.ClosePipe? || t.SendFin? ==> objs[t.o].closedBy == Some(Local))
    && (t.SendPsh? ==> objs[t.o].handed)
  }

  ghost predicate TasksOk(objs: seq<Stream>, tasks: multiset<Task>)
  {
    forall t :: t in tasks ==> TaskOk(objs, t)
  }

  ghost predicate AtOk(objs: seq<Stream>, at: At)
  {
    && AtInRange(at, |objs|)
    && (at.PushFailed? ==> objs[at.o].Closed())
    && (at.PeerFinish? ==> objs[at.o].closedBy == Some(Peer))
    && (at.PushFound? || at.PushChecked? || at.PushPipe? ==> at.data != [])
  }

  ghost predicate TodoOk(todo: seq<Action>)
  {
    forall i :: 0 <= i < |todo| ==> todo[i].PushStreamData? ==> todo[i].data != []
  }

  /** A pipe ends only after its stream was marked closed, is closed locally only by `close`,
      and never holds an empty piece of data. */
  ghost predicate StreamOk(x: Stream)
  {
    && Inv(x.pipe)
    && (x.pipe.closed || x.pipe.endQueued ==> x.Closed())
    && (x.pipe.closedLocally ==> x.closedBy == Some(Local))
    && !x.pipe.wroteEmpty
  }

  ghost predicate MapOk(streams: map<U32, nat>, objs: seq<Stream>)
  {
    forall sid :: sid in streams ==> streams[sid] < |objs| && objs[streams[sid]].sid == sid
  }

  ghost predicate TableOk(table: Table)
  {
    && MapOk(table.streams, table.objs)
    && forall o :: 0 <= o < |table.objs| ==> StreamOk(table.objs[o])
  }

  ghost predicate Sound(s: Session)
  {
    && TableOk(s.table)
    && TasksOk(s.table.objs, s.tasks)
    && AtOk(s.table.objs, s.rx.at)
    && TodoOk(s.rx.todo)
  }

  /** Soundness, and streams that only moved forward. */
  ghost predicate Onward(s: Session, s': Session)
  {
    Sound(s') && Grows(s.table.objs, s'.table.objs) && s.table.opens <= s'.table.opens
  }

  // ---- One stream changes ----

  /** The facts about tasks and the receive loop survive any growth of the streams. */
  lemma GrowthKeeps(s: Session, table: Table)
    requires Sound(s) && TableOk(table) && Grows(s.table.objs, table.objs) && s.table.opens <= table.opens
    ensures Onward(s, s.(table := table))
  {
    hide StreamOk, MapOk;
    forall t | t in s.tasks
      ensures TaskOk(table.objs, t)
    {
      assert TaskOk(s.table.objs, t);
    }
  }

  lemma ReplaceKeeps(table: Table, o: nat, x: Stream)
    requires TableOk(table) && o < |table.objs| && GrowsOne(table.objs[o], x) && StreamOk(x)
    ensures TableOk(table.(objs := table.objs[o := x])) && Grows(table.objs, table.objs[o := x])
  {
    hide StreamOk;
  }

  /** What may happen to the pipe of a stream. */
  ghost predicate Allowed(x: Stream, step: PipeStep)
  {
    && Enabled(x.pipe, step)
    && (step.Finish? ==> x.Closed())
    && (step.CloseLocally? ==> x.closedBy == Some(Local))
    && (step.Write? ==> step.data != [])
  }

  lemma PipeEndsOnlyClosed(p: Pipe, step: PipeStep)
    requires Inv(p) && Enabled(p, step)
    ensures !step.Finish? && !step.CloseLocally? ==>
              (Apply(p, step).closed || Apply(p, step).endQueued ==> p.closed || p.endQueued)
    ensures !step.CloseLocally? ==> Apply(p, step).closedLocally == p.closedLocally
    ensures Apply(p, step).wroteEmpty ==> p.wroteEmpty || step == Write([])
  {
    if step.Restore? && p.reader.item.Some? {
      assert p.Pending()[0] == p.reader.item.value;
    }
  }

  lemma StreamPipeKeeps(x: Stream, step: PipeStep)
    requires StreamOk(x) && Allowed(x, step)
    ensures StreamOk(x.(pipe := Apply(x.pipe, step)))
  {
    Preserved(x.pipe, step);
    PipeEndsOnlyClosed(x.pipe, step);
  }

  lemma OnPipeKeeps(s: Session, o: nat, step: PipeStep)
    requires Sound(s) && o < |s.table.objs| && Allowed(s.table.objs[o], step)
    ensures Onward(s, s.OnPipe(o, step))
  {
    hide StreamOk, MapOk, TasksOk, AtOk;
    StreamPipeKeeps(s.table.objs[o], step);
    ReplaceKeeps(s.table, o, s.table.objs[o].(pipe := Apply(s.table.objs[o].pipe, step)));
    GrowthKeeps(s, s.table.OnPipe(o, step));
  }

  lemma MarkClosedKeeps(s: Session, o: nat, cause: Cause)
    requires Sound(s) && o < |s.table.objs| && !s.table.objs[o].Closed()
    ensures Onward(s, s.MarkClosed(o, cause))
  {
    hide MapOk, TasksOk, AtOk, Inv;
    var x := s.table.objs[o].(closedBy := Some(cause));
    assert StreamOk(s.table.objs[o]);
    ReplaceKeeps(s.table, o, x);
    GrowthKeeps(s, s.table.MarkClosed(o, cause));
  }

  lemma InsertKeeps(s: Session, sid: U32, born: nat, handed: bool)
    requires Sound(s)
    ensures Onward(s, s.(table := s.table.Insert(sid, born, handed)))
  {
    InitialInv();
    assert StreamOk(Stream(sid, None, NewPipe(), born, [], handed));
    hide StreamOk, TasksOk, AtOk;
    GrowthKeeps(s, s.table.Insert(sid, born, handed));
  }

  // ---- The rest of the state changes ----

  lemma GrowsRefl(objs: seq<Stream>)
    ensures Grows(objs, objs)
  {
  }

  /** Soundness looks only at the streams, the map, the tasks and the receive loop. */
  lemma SameKeeps(s: Session, s': Session)
    requires Sound(s) && s'.tasks <= s.tasks && s.table.opens <= s'.table.opens
    requires s'.table.objs == s.table.objs && s'.table.streams == s.table.streams
    requires s'.rx.at == s.rx.at && s'.rx.todo == s.rx.todo
    ensures Onward(s, s')
  {
    hide StreamOk, TaskOk, AtOk, MapOk, TodoOk, GrowsOne;
    GrowsRefl(s.table.objs);
  }

  lemma GotoKeeps(s: Session, at: At)
    requires Sound(s) && AtOk(s.table.objs, at)
    ensures Onward(s, s.Goto(at))
  {
    hide TableOk, TasksOk, AtOk, TodoOk, GrowsOne;
    GrowsRefl(s.table.objs);
  }

  lemma SpawnKeeps(s: Session, ts: multiset<Task>)
    requires Sound(s) && TasksOk(s.table.objs, ts)
    ensures Onward(s, s.Spawn(ts))
  {
    hide TableOk, TaskOk, AtOk, TodoOk, GrowsOne;
    GrowsRefl(s.table.objs);
  }

  lemma RemoveKeeps(s: Session, sid: U32)
    requires Sound(s)
    ensures Onward(s, s.Remove(sid))
  {
    hide StreamOk, AtOk, TodoOk, GrowsOne;
    GrowsRefl(s.table.objs);
    var s' := s.(table := s.table.(streams := s.table.streams - {sid}));
    SpawnKeeps(s', if s'.table.streams == map[] then multiset{NotifyIdle} else multiset{});
  }

  lemma SendKeeps(s: Session, f: Frame)
    requires Sound(s)
    ensures Onward(s, s.Send(f))
  {
    hide Sound;
    SameKeeps(s, s.Send(f));
  }

  // ---- Calls and tasks ----

  lemma CallKeeps(s: Session, call: Call)
    requires Sound(s) && CallPossible(s, call)
    ensures Onward(s, CallStep(s, call))
  {
    hide Sound, GrowsOne, Apply;
    SameKeeps(s, s);
    match call
    case OpenStream => SpawnKeeps(s, multiset{OpenLock});
    case CloseStream(o) =>
      if !s.table.objs[o].Closed() {
        MarkClosedKeeps(s, o, Local);
        SpawnKeeps(s.MarkClosed(o, Local), multiset{RemoveSelf(o)});
      }
    case WriteStream(o, data) => SpawnKeeps(s, multiset{SendPsh(o, data)});
    case ReadStream(o, step) => OnPipeKeeps(s, o, step);
    case Handshake(o, error) => SendKeeps(s, Frame(SynAck, s.table.objs[o].sid, error));
    case Terminate =>
      SameKeeps(s, s.(table := s.table.(closed := true)));
      SpawnKeeps(s.(table := s.table.(closed := true)), multiset{Drain});
    case WriterExits => SameKeeps(s, CallStep(s, call));
  }

  /** Sending on the stream `o` and recording it there. */
  lemma SendOnKeeps(s: Session, f: Frame, o: nat, x: Stream)
    requires Sound(s) && o < |s.table.objs| && GrowsOne(s.table.objs[o], x) && x.pipe == s.table.objs[o].pipe
    requires x.closedBy == s.table.objs[o].closedBy
    ensures Onward(s, s.Send(f).(table := s.table.(objs := s.table.objs[o := x])))
  {
    hide MapOk, TasksOk, AtOk, Inv;
    assert StreamOk(s.table.objs[o]);
    ReplaceKeeps(s.table, o, x);
    SendKeeps(s, f);
    GrowthKeeps(s.Send(f), s.table.(objs := s.table.objs[o := x]));
  }

  lemma OpenLockKeeps(s: Session)
    requires Sound(s)
    ensures Onward(s, OpenTaskStep(s, OpenLock))
  {
    hide Sound, GrowsOne;
    SameKeeps(s, s);
    var sid := (s.table.nextId + 1) % 0x1_0000_0000;
    var s' := s.(table := s.table.(nextId := sid, opens := s.table.opens + 1));
    SameKeeps(s, s');
    InsertKeeps(s', sid, s.rx.Born(), false);
    SpawnKeeps(s'.(table := s'.table.Insert(sid, s.rx.Born(), false)), multiset{SendSyn(|s.table.objs|)});
  }

  lemma OpenTaskKeeps(s: Session, t: Task)
    requires Sound(s) && IsOpenTask(t) && TaskOk(s.table.objs, t)
    ensures Onward(s, OpenTaskStep(s, t))
  {
    hide Sound, Ascii;
    SameKeeps(s, s);
    match t
    case OpenLock => OpenLockKeeps(s);
    case SendSyn(o) =>
      SpawnKeeps(s, multiset{UndoOpen(o)});
      SendOnKeeps(s, Frame(Syn, s.table.objs[o].sid, []), o, s.table.objs[o].(handed := true));
    case UndoOpen(o) =>
      RemoveKeeps(s, s.table.objs[o].sid);
      SpawnKeeps(s.Remove(s.table.objs[o].sid), multiset{CloseBySession(o, Some(Ascii("Session closed")))});
    case SendPsh(o, data) =>
      var x := s.table.objs[o];
      SendOnKeeps(s, Frame(Psh, x.sid, data), o, x.(sent := x.sent + data));
  }

  lemma DrainKeeps(s: Session)
    requires Sound(s)
    ensures Onward(s, CloseTaskStep(s, Drain))
  {
    hide StreamOk, AtOk, TodoOk, GrowsOne;
    GrowsRefl(s.table.objs);
    SpawnKeeps(s.(table := s.table.(streams := map[], idle := true, drained := true)), Doomed(s.table.streams));
  }

  lemma CloseTaskKeeps(s: Session, t: Task)
    requires Sound(s) && !IsOpenTask(t) && TaskOk(s.table.objs, t)
    ensures Onward(s, CloseTaskStep(s, t))
  {
    hide Sound, GrowsOne, Apply;
    SameKeeps(s, s);
    match t
    case NotifyIdle => SameKeeps(s, CloseTaskStep(s, t));
    case CloseBySession(o, error) =>
      if !s.table.objs[o].Closed() {
        MarkClosedKeeps(s, o, SessionEnd);
        SpawnKeeps(s.MarkClosed(o, SessionEnd), multiset{FinishPipe(o, error)});
      }
    case FinishPipe(o, error) => OnPipeKeeps(s, o, Finish(error));
    case RemoveSelf(o) =>
      RemoveKeeps(s, s.table.objs[o].sid);
      SpawnKeeps(s.Remove(s.table.objs[o].sid), multiset{ClosePipe(o), SendFin(o)});
    case ClosePipe(o) => OnPipeKeeps(s, o, CloseLocally(None));
    case SendFin(o) => SameKeeps(s, CloseTaskStep(s, t));
    case Drain => DrainKeeps(s);
  }

  // ---- The receive loop ----

  lemma PeerClosesKeeps(s: Session, sid: U32, error: Option<Error>)
    requires Sound(s)
    ensures Onward(s, PeerCloses(s, sid, error))
  {
    assert MapOk(s.table.streams, s.table.objs);
    hide Sound, GrowsOne;
    RemoveKeeps(s, sid);
    if sid in s.table.streams {
      GotoKeeps(s.Remove(sid), PeerRemoved(s.table.streams[sid], error));
    }
  }

  lemma ActionKeeps(s: Session, action: Action, acked: bool)
    requires Sound(s) && (action.PushStreamData? ==> action.data != [])
    ensures Onward(s, ActionStep(s, action, acked))
  {
    assert MapOk(s.table.streams, s.table.objs);
    hide Sound, GrowsOne, Ascii;
    SameKeeps(s, s);
    GotoKeeps(s, Stopped);
    match action
    case SendFrame(f) => SendKeeps(s, f);
    case SendFrameSync(f) =>
      SendKeeps(s, f);
      GotoKeeps(s.Send(f), Stopped);
    case PushStreamData(sid, data) =>
      if sid in s.table.streams {
        GotoKeeps(s, PushFound(s.table.streams[sid], data));
      }
    case EnsureIncomingStream(sid) => GotoKeeps(s, Creating(sid));
    case CloseLocalStream(sid) => PeerClosesKeeps(s, sid, None);
    case CloseRemoteStream(sid, message) => PeerClosesKeeps(s, sid, Some(Ascii("remote: ") + message));
    case ReleaseWriteBuffering =>
    case AlertAndFail(message) =>
      SendKeeps(s, Frame(Alert, 0, message));
      GotoKeeps(s.Send(Frame(Alert, 0, message)), Stopped);
  }

  /** A pipe that refuses data belongs to a stream already marked closed. */
  lemma ClosedPipeClosedStream(s: Session, o: nat)
    requires Sound(s) && o < |s.table.objs|
    ensures !Accepts(s.table.objs[o].pipe) ==> s.table.objs[o].Closed()
    ensures AtOk(s.table.objs, s.rx.at)
  {
    hide MapOk, TasksOk, AtOk;
    assert StreamOk(s.table.objs[o]);
  }

  lemma PushKeeps(s: Session)
    requires Sound(s) && IsPush(s.rx.at) && AtOk(s.table.objs, s.rx.at)
    ensures Onward(s, PushStep(s, s.rx.at))
  {
    hide Sound, GrowsOne, Apply;
    var o := s.rx.at.o;
    ClosedPipeClosedStream(s, o);
    if s.rx.at.PushPipe? && Accepts(s.table.objs[o].pipe) {
      OnPipeKeeps(s, o, Write(s.rx.at.data));
      GotoKeeps(s.OnPipe(o, Write(s.rx.at.data)), Next);
    } else {
      GotoKeeps(s, PushStep(s, s.rx.at).rx.at);
    }
  }

  lemma LifeKeeps(s: Session, at: At)
    requires Sound(s) && (at.Creating? || at.PeerRemoved? || at.PeerFinish?) && AtOk(s.table.objs, at)
    ensures Onward(s, LifeStep(s, at))
  {
    hide Sound, GrowsOne, Apply;
    GotoKeeps(s, Next);
    match at
    case Creating(sid) =>
      InsertKeeps(s, sid, s.rx.Born(), true);
      GotoKeeps(s.(table := s.table.Insert(sid, s.rx.Born(), true)), Next);
    case PeerRemoved(o, error) =>
      if !s.table.objs[o].Closed() {
        MarkClosedKeeps(s, o, Peer);
        GotoKeeps(s.MarkClosed(o, Peer), PeerFinish(o, error));
      }
    case PeerFinish(o, error) =>
      OnPipeKeeps(s, o, Finish(error));
      GotoKeeps(s.OnPipe(o, Finish(error)), Next);
  }

  lemma SettingsOnlySend(st: Engine.State, settings: map<Text, Text>)
    ensures var actions := OnSettings(st, settings).1;
            forall i :: 0 <= i < |actions| ==> actions[i].SendFrameSync?
  {
    hide DeclaredVersion, ServerSettingsFrame;
  }

  lemma PushesCarryData(digest: Text -> Text, st: Engine.State, isClient: bool, f: Frame)
    ensures TodoOk(OnFrame(digest, st, isClient, f).1)
  {
    hide OnSettings, Ascii;
    SettingsOnlySend(st, StringMaps.Read(f.data));
  }

  lemma FrameKeeps(digest: Text -> Text, s: Session, f: Frame)
    requires Sound(s) && s.rx.at.Next? && s.rx.todo == [] && HEADER_SIZE + |f.data| <= |s.rx.pending|
    ensures Onward(s, s.(rx := HandleFrame(digest, s.rx, s.isClient, f)))
  {
    hide TableOk, TasksOk, GrowsOne, OnFrame, TodoOk;
    GrowsRefl(s.table.objs);
    PushesCarryData(digest, s.rx.engine, s.isClient, f);
  }

  lemma TodoKeeps(s: Session)
    requires Sound(s) && s.rx.todo != []
    ensures Onward(s, s.(rx := s.rx.(todo := s.rx.todo[1..])))
    ensures s.rx.todo[0].PushStreamData? ==> s.rx.todo[0].data != []
  {
    hide TableOk, TasksOk, AtOk, GrowsOne;
    GrowsRefl(s.table.objs);
  }

  lemma ReceiveKeeps(digest: Text -> Text, s: Session, progress: Progress)
    requires Sound(s) && ProgressPossible(s, progress)
    ensures Onward(s, ReceiveStep(digest, s, progress))
  {
    if progress.Continue? {
      assert AtOk(s.table.objs, s.rx.at);
    }
    hide Sound, GrowsOne, HandleFrame, ActionStep, PushStep, LifeStep;
    match progress
    case Arrive(chunk) => SameKeeps(s, ReceiveStep(digest, s, progress));
    case TakeFrame => FrameKeeps(digest, s, Decode(s.rx.pending).value);
    case Act(acked) =>
      TodoKeeps(s);
      ActionKeeps(s.(rx := s.rx.(todo := s.rx.todo[1..])), s.rx.todo[0], acked);
    case Continue =>
      if IsPush(s.rx.at) {
        PushKeeps(s);
      } else {
        LifeKeeps(s, s.rx.at);
      }
    case Fail => GotoKeeps(s, Stopped);
  }

  // ---- Runs ----

  lemma TaskFacts(s: Session, t: Task)
    requires Sound(s) && t in s.tasks
    ensures TaskOk(s.table.objs, t)
  {
    hide TaskOk, AtOk, TableOk;
  }

  lemma PipeSound(s: Session, o: nat)
    requires Sound(s) && o < |s.table.objs|
    ensures Inv(s.table.objs[o].pipe)
  {
    assert StreamOk(s.table.objs[o]);
  }

  lemma MapFacts(s: Session)
    requires Sound(s)
    ensures MapOk(s.table.streams, s.table.objs)
  {
    hide MapOk, TasksOk, AtOk, TodoOk, StreamOk;
  }

  /** Every step keeps a session sound and lets its streams only move forward. */
  lemma StepKeeps(digest: Text -> Text, s: Session, ev: Event)
    requires Sound(s) && Possible(s, ev)
    ensures Onward(s, Step(digest, s, ev))
  {
    hide Sound, GrowsOne, CallStep, OpenTaskStep, CloseTaskStep, ReceiveStep;
    match ev
    case Api(call) => CallKeeps(s, call);
    case RunTask(t) =>
      TaskFacts(s, t);
      var s' := s.(tasks := s.tasks - multiset{t});
      SameKeeps(s, s');
      if IsOpenTask(t) {
        OpenTaskKeeps(s', t);
      } else {
        CloseTaskKeeps(s', t);
      }
    case Receive(progress) => ReceiveKeeps(digest, s, progress);
  }

  lemma InitiallySound(isClient: bool, cap: nat, engine: Engine.State, order: seq<(Text, Text)>)
    ensures Sound(NewSession(isClient, cap, engine, order))
  {
  }

  lemma {:induction false} RunsSound(digest: Text -> Text, init: Session, events: seq<Event>)
    requires Sound(init) && Run(digest, init, events).Some?
    ensures Sound(Run(digest, init, events).value)
  {
    hide Sound, Grows, Step;
    if events != [] {
      RunsSound(digest, init, events[..|events| - 1]);
      StepKeeps(digest, Run(digest, init, events[..|events| - 1]).value, events[|events| - 1]);
    }
  }
}
