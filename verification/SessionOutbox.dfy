/** The frames a client session queues: every stream opens with its SYN, carries what was written
    to it, and queues at most one FIN. */
module SessionOutbox {
  import opened Bytes
  import opened Options
  import opened Texts
  import opened Frames
  import opened Engine
  import opened Pipes
  import opened Sessions
  import opened SessionSafety
  import opened SessionLifecycle
  import opened SessionReceive
  import opened SessionDelivery

  // ---- Properties of a list of frames ----

  /** The frame belongs to one stream. */
  predicate Talks(f: Frame) { f.cmd.Syn? || f.cmd.Psh? || f.cmd.Fin? || f.cmd.SynAck? }

  predicate Mentions(fs: seq<Frame>, sid: U32)
  {
    fs != [] && (Mentions(fs[..|fs| - 1], sid) || (Talks(Last(fs)) && Last(fs).sid == sid))
  }

  /** A SYN is the first frame of its stream. */
  predicate SynFirst(fs: seq<Frame>)
  {
    fs == [] || (SynFirst(fs[..|fs| - 1]) && (Last(fs).cmd.Syn? ==> !Mentions(fs[..|fs| - 1], Last(fs).sid)))
  }

  /** The payload of all PSH frames of a stream. */
  function Payload(sid: U32, fs: seq<Frame>): seq<Byte>
  {
    if fs == [] then []
    else Payload(sid, fs[..|fs| - 1]) + if Last(fs).cmd.Psh? && Last(fs).sid == sid then Last(fs).data else []
  }

  /** The number of FIN frames of a stream. */
  function Fins(sid: U32, fs: seq<Frame>): nat
  {
    if fs == [] then 0 else Fins(sid, fs[..|fs| - 1]) + if Last(fs).cmd.Fin? && Last(fs).sid == sid then 1 else 0
  }

  predicate Unpadded(fs: seq<Frame>)
  {
    forall i :: 0 <= i < |fs| ==> !fs[i].cmd.Waste?
  }

  /** A client queues no padding, which is the writer's business, and no SYNACK. */
  predicate OwnFrames(fs: seq<Frame>)
  {
    forall i :: 0 <= i < |fs| ==> !fs[i].cmd.Waste? && !fs[i].cmd.SynAck?
  }

  lemma Snoc(fs: seq<Frame>, f: Frame, sid: U32)
    ensures Mentions(fs + [f], sid) == (Mentions(fs, sid) || (Talks(f) && f.sid == sid))
    ensures SynFirst(fs + [f]) == (SynFirst(fs) && (f.cmd.Syn? ==> !Mentions(fs, f.sid)))
    ensures Payload(sid, fs + [f]) == Payload(sid, fs) + if f.cmd.Psh? && f.sid == sid then f.data else []
    ensures Fins(sid, fs + [f]) == Fins(sid, fs) + if f.cmd.Fin? && f.sid == sid then 1 else 0
  {
    assert (fs + [f])[..|fs + [f]| - 1] == fs;
  }

  // ---- The invariant ----

  /** Stream `o`, whose identifier is `o + 1`, against the queued frames. */
  ghost predicate Recorded(x: Stream, o: nat, channel: Channel)
  {
    && Payload(x.sid, channel.frames) == x.sent
    && Fins(x.sid, channel.frames) == multiset(channel.finLog)[o]
    && (x.closedBy == Some(Local) ==> x.handed)
  }

  /** Only streams whose SYN was queued are mentioned. */
  ghost predicate OnlyOpened(objs: seq<Stream>, frames: seq<Frame>)
  {
    forall sid: U32 :: Mentions(frames, sid) ==> 1 <= sid <= |objs| && objs[sid - 1].handed
  }

  /** A stream that still waits for its SYN waits for one only. */
  ghost predicate OneSyn(objs: seq<Stream>, tasks: multiset<Task>)
  {
    forall o :: 0 <= o < |objs| ==> tasks[SendSyn(o)] <= if objs[o].handed then 0 else 1
  }

  ghost predicate OutboxOk(s: Session)
  {
    && OwnFrames(s.channel.frames) && SynFirst(s.channel.frames)
    && OnlyOpened(s.table.objs, s.channel.frames)
    && OneSyn(s.table.objs, s.tasks)
    && (forall i :: 0 <= i < |s.channel.finLog| ==> s.channel.finLog[i] < |s.table.objs|)
    && (forall o :: 0 <= o < |s.table.objs| ==> s.table.objs[o].sid == o + 1)
    && (forall o :: 0 <= o < |s.table.objs| ==> Recorded(s.table.objs[o], o, s.channel))
  }

  /** Steps that queue nothing and record nothing. */
  lemma OutboxSame(s: Session, s': Session)
    requires OutboxOk(s) && |s'.table.objs| == |s.table.objs|
    requires s'.channel.frames == s.channel.frames && s'.channel.finLog == s.channel.finLog
    requires forall o :: 0 <= o < |s.table.objs| ==>
               var (a, b) := (s.table.objs[o], s'.table.objs[o]);
               b.sid == a.sid && b.sent == a.sent && b.handed == a.handed && (b.closedBy == Some(Local) ==> b.handed)
    requires forall o :: s'.tasks[SendSyn(o)] <= s.tasks[SendSyn(o)]
    ensures OutboxOk(s')
  {
    hide OwnFrames, SynFirst, Mentions, Payload, Fins;
    forall o | 0 <= o < |s'.table.objs|
      ensures Recorded(s'.table.objs[o], o, s'.channel)
    {
      assert Recorded(s.table.objs[o], o, s.channel);
    }
  }

  /** Frames that belong to no stream. */
  lemma OutboxQuiet(s: Session, f: Frame)
    requires OutboxOk(s) && !Talks(f) && !f.cmd.Waste?
    ensures OutboxOk(s.Send(f))
  {
    hide SynFirst, Mentions, Payload, Fins;
    var s' := s.Send(f);
    forall sid: U32 | Mentions(s'.channel.frames, sid)
      ensures 1 <= sid <= |s.table.objs| && s.table.objs[sid - 1].handed
    {
      Snoc(s.channel.frames, f, sid);
    }
    Snoc(s.channel.frames, f, 0);
    forall o | 0 <= o < |s.table.objs|
      ensures Recorded(s.table.objs[o], o, s'.channel)
    {
      assert Recorded(s.table.objs[o], o, s.channel);
      Snoc(s.channel.frames, f, s.table.objs[o].sid);
    }
  }

  /** Stream `o` queues a frame of its own: its SYN, some data or its FIN. */
  lemma OutboxTalk(s: Session, s': Session, f: Frame, o: nat, x: Stream)
    requires OutboxOk(s) && o < |s.table.objs| && f.sid == s.table.objs[o].sid && (f.cmd.Syn? || f.cmd.Psh? || f.cmd.Fin?)
    requires f.cmd.Syn? ==> !s.table.objs[o].handed
    requires x.handed && x.sid == s.table.objs[o].sid && x.sent == s.table.objs[o].sent + if f.cmd.Psh? then f.data else []
    requires s'.table.objs == s.table.objs[o := x] && s'.channel.frames == s.channel.frames + [f]
    requires s'.channel.finLog == s.channel.finLog + if f.cmd.Fin? then [o] else []
    requires OneSyn(s'.table.objs, s'.tasks)
    ensures OutboxOk(s')
  {
    hide SynFirst, Mentions, Payload, Fins, OneSyn;
    Snoc(s.channel.frames, f, f.sid);
    forall sid: U32 | Mentions(s'.channel.frames, sid)
      ensures 1 <= sid <= |s'.table.objs| && s'.table.objs[sid - 1].handed
    {
      Snoc(s.channel.frames, f, sid);
    }
    forall p | 0 <= p < |s'.table.objs|
      ensures Recorded(s'.table.objs[p], p, s'.channel)
    {
      assert Recorded(s.table.objs[p], p, s.channel);
      Snoc(s.channel.frames, f, s.table.objs[p].sid);
    }
  }

  /** A new stream is not mentioned yet. */
  lemma {:induction false} Unmentioned(fs: seq<Frame>, sid: U32)
    requires !Mentions(fs, sid)
    ensures Payload(sid, fs) == [] && Fins(sid, fs) == 0
  {
    if fs != [] {
      Unmentioned(fs[..|fs| - 1], sid);
    }
  }

  lemma OutboxInsert(s: Session, s': Session, sid: U32, born: nat)
    requires OutboxOk(s) && TasksOk(s.table.objs, s.tasks) && sid == |s.table.objs| + 1
    requires s'.table.objs == s.table.objs + [Stream(sid, None, NewPipe(), born, [], false)]
    requires s'.channel == s.channel && s'.tasks == s.tasks + multiset{SendSyn(|s.table.objs|)}
    ensures OutboxOk(s')
  {
    hide OwnFrames, SynFirst, Mentions, Payload, Fins;
    var n := |s.table.objs|;
    Unmentioned(s.channel.frames, sid);
    assert n !in s.channel.finLog;
    assert !TaskInRange(SendSyn(n), n);
    forall p | 0 <= p < |s'.table.objs|
      ensures Recorded(s'.table.objs[p], p, s'.channel)
    {
      if p < n {
        assert Recorded(s.table.objs[p], p, s.channel);
      }
    }
  }

  // ---- Steps ----

  lemma OutboxCall(s: Session, call: Call)
    requires OutboxOk(s) && s.isClient && CallPossible(s, call)
    ensures OutboxOk(CallStep(s, call))
  {
    hide Apply, Enabled, OwnFrames, SynFirst, OnlyOpened;
    OutboxSame(s, CallStep(s, call));
  }

  lemma OutboxOpenLock(s: Session)
    requires OutboxOk(s) && IdsInOrder(s.table) && TasksOk(s.table.objs, s.tasks)
    requires OpenTaskStep(s, OpenLock).table.opens < IDS
    ensures OutboxOk(OpenTaskStep(s, OpenLock))
  {
    hide OutboxOk, TasksOk;
    if s.table.closed || |s.table.streams| >= s.cap {
      return;
    }
    OutboxInsert(s, OpenTaskStep(s, OpenLock), (s.table.nextId + 1) % IDS, s.rx.Born());
  }

  /** Steps that touch neither the streams nor the channel. */
  lemma OutboxElsewhere(s: Session, s': Session)
    requires OutboxOk(s) && s'.table.objs == s.table.objs
    requires s'.channel.frames == s.channel.frames && s'.channel.finLog == s.channel.finLog
    requires forall o :: s'.tasks[SendSyn(o)] <= s.tasks[SendSyn(o)]
    ensures OutboxOk(s')
  {
    hide OwnFrames, SynFirst, OnlyOpened;
    OutboxSame(s, s');
  }

  lemma OutboxSyn(s: Session, o: nat)
    requires OutboxOk(s) && o < |s.table.objs| && !s.table.objs[o].handed && s.tasks[SendSyn(o)] == 0
    ensures OutboxOk(OpenTaskStep(s, SendSyn(o)))
  {
    assert OneSyn(s.table.objs, s.tasks);
    hide OutboxOk;
    if s.channel.gone {
      OutboxElsewhere(s, OpenTaskStep(s, SendSyn(o)));
    } else {
      OutboxTalk(s, OpenTaskStep(s, SendSyn(o)), Frame(Syn, s.table.objs[o].sid, []), o, s.table.objs[o].(handed := true));
    }
  }

  lemma OutboxPsh(s: Session, o: nat, data: seq<Byte>)
    requires OutboxOk(s) && o < |s.table.objs| && s.table.objs[o].handed
    ensures OutboxOk(OpenTaskStep(s, SendPsh(o, data)))
  {
    assert OneSyn(s.table.objs, s.tasks);
    hide OutboxOk;
    var x := s.table.objs[o];
    if !s.channel.gone {
      OutboxTalk(s, OpenTaskStep(s, SendPsh(o, data)), Frame(Psh, x.sid, data), o, x.(sent := x.sent + data));
    }
  }

  lemma OutboxOpenTask(s: Session, t: Task)
    requires OutboxOk(s) && IsOpenTask(t) && !t.OpenLock? && TaskOk(s.table.objs, t)
    requires t.SendSyn? ==> !s.table.objs[t.o].handed && s.tasks[t] == 0
    ensures OutboxOk(OpenTaskStep(s, t))
  {
    hide OutboxOk, Ascii;
    match t
    case SendSyn(o) => OutboxSyn(s, o); return;
    case UndoOpen(o) => OutboxElsewhere(s, OpenTaskStep(s, t)); return;
    case SendPsh(o, data) => OutboxPsh(s, o, data); return;
  }

  lemma OutboxReplace(s: Session, o: nat, x: Stream)
    requires OutboxOk(s) && o < |s.table.objs|
    requires x.sid == s.table.objs[o].sid && x.sent == s.table.objs[o].sent && x.handed == s.table.objs[o].handed
    requires x.closedBy == Some(Local) ==> s.table.objs[o].closedBy == Some(Local)
    ensures OutboxOk(s.(table := s.table.(objs := s.table.objs[o := x])))
  {
    hide OwnFrames, SynFirst, OnlyOpened, Payload, Fins;
    OutboxSame(s, s.(table := s.table.(objs := s.table.objs[o := x])));
  }

  lemma OutboxFin(s: Session, o: nat)
    requires OutboxOk(s) && TaskOk(s.table.objs, SendFin(o))
    ensures OutboxOk(CloseTaskStep(s, SendFin(o)))
  {
    var x := s.table.objs[o];
    assert Recorded(x, o, s.channel) && OneSyn(s.table.objs, s.tasks);
    hide OutboxOk, Payload, Fins;
    if !s.channel.gone {
      assert x.sent + [] == x.sent;
      OutboxTalk(s, CloseTaskStep(s, SendFin(o)), Frame(Fin, x.sid, []), o, x);
    }
  }

  lemma OutboxCloseTask(s: Session, t: Task)
    requires OutboxOk(s) && !IsOpenTask(t) && TaskOk(s.table.objs, t)
    ensures OutboxOk(CloseTaskStep(s, t))
  {
    hide OutboxOk, Apply;
    var s' := CloseTaskStep(s, t);
    match t
    case CloseBySession(o, error) =>
      if !s.table.objs[o].Closed() {
        OutboxReplace(s, o, s.table.objs[o].(closedBy := Some(SessionEnd)));
        OutboxElsewhere(s.MarkClosed(o, SessionEnd), s');
      }
      return;
    case FinishPipe(o, error) =>
      OutboxReplace(s, o, s.table.objs[o].(pipe := Apply(s.table.objs[o].pipe, Finish(error))));
      return;
    case ClosePipe(o) =>
      OutboxReplace(s, o, s.table.objs[o].(pipe := Apply(s.table.objs[o].pipe, CloseLocally(None))));
      return;
    case SendFin(o) => OutboxFin(s, o); return;
    case Drain =>
      assert forall o :: SendSyn(o) !in Doomed(s.table.streams);
      OutboxElsewhere(s, s');
      return;
    case _ => OutboxElsewhere(s, s'); return;
  }

  lemma OutboxAction(s: Session, action: Action, acked: bool)
    requires OutboxOk(s) && s.rx.handled != [] && Asks(true, Last(s.rx.handled), action)
    ensures OutboxOk(ActionStep(s, action, acked))
  {
    hide OutboxOk, Ascii;
    if action.SendFrame? || action.SendFrameSync? {
      OutboxQuiet(s, action.frame);
      OutboxElsewhere(s, s.Goto(Stopped));
      OutboxElsewhere(s.Send(action.frame), s.Send(action.frame).Goto(Stopped));
    } else {
      OutboxElsewhere(s, ActionStep(s, action, acked));
    }
  }

  lemma OutboxContinue(digest: Text -> Text, s: Session)
    requires OutboxOk(s) && ProgressPossible(s, Continue) && !s.rx.at.Creating?
    ensures OutboxOk(ReceiveStep(digest, s, Continue))
  {
    hide OutboxOk, PushStep, LifeStep;
    if IsPush(s.rx.at) {
      OutboxPush(s);
    } else {
      OutboxLife(s);
    }
  }

  lemma OutboxPush(s: Session)
    requires OutboxOk(s) && IsPush(s.rx.at) && AtInRange(s.rx.at, |s.table.objs|)
    ensures OutboxOk(PushStep(s, s.rx.at))
  {
    hide OutboxOk, Apply, Accepts;
    var s' := PushStep(s, s.rx.at);
    if s.rx.at.PushPipe? && Accepts(s.table.objs[s.rx.at.o].pipe) {
      var o, data := s.rx.at.o, s.rx.at.data;
      OutboxReplace(s, o, s.table.objs[o].(pipe := Apply(s.table.objs[o].pipe, Write(data))));
      OutboxElsewhere(s.OnPipe(o, Write(data)), s');
    } else {
      OutboxElsewhere(s, s');
    }
  }

  lemma OutboxLife(s: Session)
    requires OutboxOk(s) && (s.rx.at.PeerRemoved? || s.rx.at.PeerFinish?) && AtInRange(s.rx.at, |s.table.objs|)
    ensures OutboxOk(LifeStep(s, s.rx.at))
  {
    hide OutboxOk, Apply;
    var s' := LifeStep(s, s.rx.at);
    match s.rx.at
    case PeerRemoved(o, error) =>
      if s.table.objs[o].Closed() {
        OutboxElsewhere(s, s');
      } else {
        OutboxReplace(s, o, s.table.objs[o].(closedBy := Some(Peer)));
        OutboxElsewhere(s.MarkClosed(o, Peer), s');
      }
      return;
    case PeerFinish(o, error) =>
      OutboxReplace(s, o, s.table.objs[o].(pipe := Apply(s.table.objs[o].pipe, Finish(error))));
      OutboxElsewhere(s.OnPipe(o, Finish(error)), s');
      return;
  }

  lemma OutboxReceive(digest: Text -> Text, s: Session, progress: Progress)
    requires OutboxOk(s) && ClientOk(s) && Tracks(s) && ProgressPossible(s, progress)
    ensures OutboxOk(ReceiveStep(digest, s, progress))
  {
    hide OutboxOk, IdsInOrder, DrainedForGood, WorksOn, HandleFrame, ActionStep, PushStep, LifeStep;
    match progress
    case Act(acked) =>
      var s' := s.(rx := s.rx.(todo := s.rx.todo[1..]));
      OutboxElsewhere(s, s');
      OutboxAction(s', s.rx.todo[0], acked);
      return;
    case Continue => OutboxContinue(digest, s); return;
    case _ => OutboxElsewhere(s, ReceiveStep(digest, s, progress)); return;
  }

  lemma OutboxStep(digest: Text -> Text, s: Session, ev: Event)
    requires OutboxOk(s) && Sound(s) && ClientOk(s) && Tracks(s) && Possible(s, ev)
    requires Step(digest, s, ev).table.opens < IDS
    ensures OutboxOk(Step(digest, s, ev))
  {
    match ev
    case Api(call) => OutboxCall(s, call); return;
    case RunTask(t) => OutboxTask(digest, s, t); return;
    case Receive(progress) => OutboxReceive(digest, s, progress); return;
  }

  lemma OutboxTask(digest: Text -> Text, s: Session, t: Task)
    requires OutboxOk(s) && Sound(s) && ClientOk(s) && Possible(s, RunTask(t))
    requires Step(digest, s, RunTask(t)).table.opens < IDS
    ensures OutboxOk(Step(digest, s, RunTask(t)))
  {
    hide Sound, NoIncoming, DrainedForGood, OwnFrames, SynFirst, OnlyOpened, Recorded, Ascii;
    var s' := s.(tasks := s.tasks - multiset{t});
    TaskFacts(s, t);
    OutboxElsewhere(s, s');
    if t.OpenLock? {
      SameKeeps(s, s');
      OpenLockFacts(s');
      OutboxOpenLock(s');
    } else if IsOpenTask(t) {
      OutboxOpenTask(s', t);
    } else {
      OutboxCloseTask(s', t);
    }
  }

  lemma OpenLockFacts(s: Session)
    requires Sound(s)
    ensures TasksOk(s.table.objs, s.tasks)
  {
    hide TasksOk, TableOk, AtOk;
  }

  lemma SettingsAlone(f: Frame)
    requires f.cmd.Settings?
    ensures OwnFrames([f]) && SynFirst([f])
    ensures forall sid: U32 :: !Mentions([f], sid)
  {
    assert [f] == [] + [f];
    forall sid: U32
      ensures !Mentions([f], sid) && SynFirst([f])
    {
      Snoc([], f, sid);
    }
    assert !Mentions([f], 0);
  }

  lemma InitialOutbox(cap: nat, engine: Engine.State, order: seq<(Text, Text)>)
    ensures OutboxOk(NewSession(true, cap, engine, order))
  {
    hide Mentions, SynFirst, OwnFrames, Payload, Fins;
    var settings := SettingsFrame(order);
    var action := SendFrame(settings);
    assert [action][1..] == [];
    assert Engine.Sent([action]) == [settings];
    SettingsAlone(settings);
  }

  /** In every run of a client session that drew fewer than 2^32 identifiers, the queued frames
      open each stream with its SYN, carry exactly the bytes written to it, and hold as many FINs
      as its log. */
  lemma {:induction false} OutboxRuns(digest: Text -> Text, init: Session, events: seq<Event>)
    requires Sound(init) && ClientOk(init) && Tracks(init) && OutboxOk(init)
    requires AllDelivered(init) && Reassembled(init.rx) && Run(digest, init, events).Some?
    requires Run(digest, init, events).value.table.opens < IDS
    ensures OutboxOk(Run(digest, init, events).value)
  {
    hide Step, Possible, Sound, ClientOk, Tracks, OutboxOk, AllDelivered, Reassembled;
    if events != [] {
      var front, last := events[..|events| - 1], events[|events| - 1];
      var s := Run(digest, init, front).value;
      DeliveryRuns(digest, init, front);
      ClientRuns(digest, init, front);
      StepKeeps(digest, s, last);
      OutboxRuns(digest, init, front);
      OutboxStep(digest, s, last);
    }
  }
}
