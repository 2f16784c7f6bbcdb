/** Concrete runs: bytes that arrive, an end of file without a FIN, and a stream lost to a reused
    identifier. */
module Scenarios {
  import opened Bytes
  import opened Options
  import opened Texts
  import opened Frames
  import opened Engine
  import opened Padding
  import opened Pipes
  import opened Sessions
  import opened SessionSafety
  import opened SessionLifecycle
  import opened SessionIdle
  import opened SessionOutbox
  import opened SessionTermination
  import opened EndToEnd
  import StringMaps
  import Writer
  import WriterRuns

  // ---- Runs without naming their events ----

  ghost predicate Leads(digest: Text -> Text, s: Session, s': Session)
  {
    exists events: seq<Event> :: Run(digest, s, events) == Some(s')
  }

  lemma LeadsOne(digest: Text -> Text, s: Session, ev: Event)
    requires Possible(s, ev)
    ensures Leads(digest, s, Step(digest, s, ev))
  {
    hide Run, Step, Possible;
    RunOne(digest, s, ev);
  }

  lemma LeadsOn(digest: Text -> Text, a: Session, b: Session, c: Session)
    requires Leads(digest, a, b) && Leads(digest, b, c)
    ensures Leads(digest, a, c)
  {
    hide Run;
    var first: seq<Event> :| Run(digest, a, first) == Some(b);
    var second: seq<Event> :| Run(digest, b, second) == Some(c);
    RunConcat(digest, a, first, second);
  }

  /** One more step. */
  lemma ThenStep(digest: Text -> Text, a: Session, b: Session, ev: Event)
    requires Leads(digest, a, b) && Possible(b, ev)
    ensures Leads(digest, a, Step(digest, b, ev))
  {
    hide Leads, Step, Possible;
    LeadsOne(digest, b, ev);
    LeadsOn(digest, a, b, Step(digest, b, ev));
  }

  // ---- A frame arrives at a session at rest ----

  predicate Resting(rx: Receiver) { rx.at.Next? && rx.todo == [] && rx.pending == [] }

  /** The receive loop with frame `f` taken off the wire and its actions still to do. */
  function Took(digest: Text -> Text, s: Session, f: Frame): Receiver
  {
    var (engine, actions) := OnFrame(digest, s.rx.engine, s.isClient, f);
    Receiver(engine, Next, actions, [], s.rx.received + Encode(f), s.rx.handled + [f])
  }

  /** The receive loop after a frame that asked for nothing, or when all it asked for is done. */
  function After(rx: Receiver, f: Frame): Receiver
  {
    rx.(received := rx.received + Encode(f), handled := rx.handled + [f])
  }

  lemma TakeStep(digest: Text -> Text, rx: Receiver, isClient: bool, f: Frame)
    requires f.Fits() && !f.cmd.Alert? && rx.pending == Encode(f)
    ensures Decode(rx.pending) == Some(f)
    ensures var (engine, actions) := OnFrame(digest, rx.engine, isClient, f);
            HandleFrame(digest, rx, isClient, f)
            == rx.(engine := engine, todo := actions, pending := [], handled := rx.handled + [f])
  {
    DecodeEncode(f, []);
    hide Encode, Decode, OnFrame;
    assert rx.pending[HEADER_SIZE + |f.data|..] == [];
  }

  lemma FrameArrives(digest: Text -> Text, s: Session, f: Frame)
    requires Resting(s.rx) && f.Fits() && !f.cmd.Alert?
    ensures Leads(digest, s, s.(rx := Took(digest, s, f)))
  {
    hide Leads, Encode, Decode, OnFrame, HandleFrame;
    assert Decode([]).None? by {
      NothingDecodes();
    }
    var arrive := Event.Receive(Arrive(Encode(f)));
    var s1 := Step(digest, s, arrive);
    assert [] + Encode(f) == Encode(f);
    LeadsOne(digest, s, arrive);
    TakeStep(digest, s1.rx, s.isClient, f);
    ThenStep(digest, s, s1, Event.Receive(TakeFrame));
  }

  lemma NothingDecodes()
    ensures Decode([]).None?
  {
  }

  // ---- A server gets its settings, a SYN, data ----

  /** The server answers settings and goes on. */
  lemma {:induction false} SendsAll(digest: Text -> Text, s: Session) returns (channel: Channel)
    requires s.rx.at.Next? && !s.channel.gone
    requires forall i :: 0 <= i < |s.rx.todo| ==> s.rx.todo[i].SendFrameSync?
    ensures !channel.gone && Leads(digest, s, s.(rx := s.rx.(todo := []), channel := channel))
    decreases |s.rx.todo|
  {
    hide Leads;
    if s.rx.todo == [] {
      channel := s.channel;
      assert s.(rx := s.rx.(todo := []), channel := channel) == s;
      LeadsNothing(digest, s);
    } else {
      var act := Event.Receive(Act(true));
      var s1 := Step(digest, s, act);
      assert s1 == s.(rx := s.rx.(todo := s.rx.todo[1..]), channel := s.channel.Send(s.rx.todo[0].frame));
      LeadsOne(digest, s, act);
      channel := SendsAll(digest, s1);
      LeadsOn(digest, s, s1, s1.(rx := s1.rx.(todo := []), channel := channel));
    }
  }

  lemma LeadsNothing(digest: Text -> Text, s: Session)
    ensures Leads(digest, s, s)
  {
    assert Run(digest, s, []) == Some(s);
  }

  /** Settings that say something. */
  ghost predicate Greets(order: seq<(Text, Text)>)
  {
    0 < |StringMaps.Print(order)| < 0x1_0000
  }

  lemma Greeting(digest: Text -> Text, s: Session, order: seq<(Text, Text)>) returns (s': Session)
    requires Resting(s.rx) && !s.isClient && !s.channel.gone && Greets(order)
    ensures Leads(digest, s, s') && s'.rx.engine.settingsReceived && !s'.channel.gone
    ensures s'.rx == After(s.rx, SettingsFrame(order)).(engine := s'.rx.engine)
    ensures s' == s.(rx := s'.rx, channel := s'.channel)
  {
    hide Leads, Encode, StringMaps.Print, StringMaps.Read, OnSettings;
    var f := SettingsFrame(order);
    FrameArrives(digest, s, f);
    var s1 := s.(rx := Took(digest, s, f));
    SettingsAnswer(s.rx.engine, StringMaps.Read(f.data));
    SettingsOnlySend(s.rx.engine, StringMaps.Read(f.data));
    var channel := SendsAll(digest, s1);
    s' := s1.(rx := s1.rx.(todo := []), channel := channel);
    LeadsOn(digest, s, s1, s');
  }

  lemma SettingsAnswer(st: Engine.State, settings: map<Text, Text>)
    ensures OnSettings(st, settings).0.settingsReceived
  {
    hide DeclaredVersion;
  }

  lemma SynArrives(digest: Text -> Text, s: Session, sid: U32)
    requires Resting(s.rx) && !s.isClient && s.rx.engine.settingsReceived && !s.Terminated()
    requires sid != 0 && sid !in s.table.streams
    ensures var f := Frame(Syn, sid, []);
            Leads(digest, s, s.(rx := After(s.rx, f), table := s.table.Insert(sid, |s.rx.handled| + 1, true)))
  {
    hide Leads, Encode;
    var f := Frame(Syn, sid, []);
    FrameArrives(digest, s, f);
    var s1 := s.(rx := Took(digest, s, f));
    var s2 := Step(digest, s1, Event.Receive(Act(true)));
    ThenStep(digest, s, s1, Event.Receive(Act(true)));
    assert s1.rx.todo[1..] == [];
    assert s2 == s.(rx := After(s.rx, f).(at := Creating(sid)));
    ThenStep(digest, s, s2, Event.Receive(Continue));
  }

  lemma DataArrives(digest: Text -> Text, s: Session, sid: U32, data: seq<Byte>)
    requires Resting(s.rx) && sid in s.table.streams && s.table.streams[sid] < |s.table.objs|
    requires 0 < |data| < 0x1_0000
    requires var x := s.table.objs[s.table.streams[sid]];
             !x.Closed() && Accepts(x.pipe)
    ensures var f, o := Frame(Psh, sid, data), s.table.streams[sid];
            Leads(digest, s, s.(rx := After(s.rx, f), table := s.table.OnPipe(o, Write(data))))
  {
    hide Leads, Encode, Apply;
    var f, o := Frame(Psh, sid, data), s.table.streams[sid];
    FrameArrives(digest, s, f);
    var s1 := s.(rx := Took(digest, s, f));
    ThenStep(digest, s, s1, Event.Receive(Act(true)));
    assert s1.rx.todo[1..] == [];
    DataGoesIn(digest, s, f, o);
  }

  /** The sections of a push, one after another. */
  lemma DataGoesIn(digest: Text -> Text, s: Session, f: Frame, o: nat)
    requires o < |s.table.objs| && !s.table.objs[o].Closed() && Accepts(s.table.objs[o].pipe)
    requires Leads(digest, s, s.(rx := After(s.rx, f).(at := PushFound(o, f.data)))) && s.rx.at.Next?
    ensures Leads(digest, s, s.(rx := After(s.rx, f), table := s.table.OnPipe(o, Write(f.data))))
  {
    hide Leads, Encode, Apply, Accepts;
    var rx := After(s.rx, f);
    ThenStep(digest, s, s.(rx := rx.(at := PushFound(o, f.data))), Event.Receive(Continue));
    ThenStep(digest, s, s.(rx := rx.(at := PushChecked(o, f.data))), Event.Receive(Continue));
    ThenStep(digest, s, s.(rx := rx.(at := PushPipe(o, f.data))), Event.Receive(Continue));
  }

  /** A FIN for a stream that is closed already only takes it out of the map. */
  lemma LateFinArrives(digest: Text -> Text, s: Session, sid: U32)
    requires Resting(s.rx) && sid in s.table.streams && s.table.streams[sid] < |s.table.objs|
    requires s.table.objs[s.table.streams[sid]].Closed()
    ensures var s' := s.Remove(sid);
            Leads(digest, s, s'.(rx := After(s.rx, Frame(Fin, sid, []))))
  {
    hide Leads, Encode;
    var f, o := Frame(Fin, sid, []), s.table.streams[sid];
    FrameArrives(digest, s, f);
    var s1 := s.(rx := Took(digest, s, f));
    var s2 := s.Remove(sid).(rx := After(s.rx, f).(at := PeerRemoved(o, None)));
    ThenStep(digest, s, s1, Event.Receive(Act(true)));
    assert s1.rx.todo[1..] == [];
    assert Step(digest, s1, Event.Receive(Act(true))) == s2;
    ThenStep(digest, s, s2, Event.Receive(Continue));
  }

  /** A FIN for an open stream closes it and queues its end. */
  lemma FinArrives(digest: Text -> Text, s: Session, sid: U32)
    requires Resting(s.rx) && sid in s.table.streams && s.table.streams[sid] < |s.table.objs|
    requires !s.table.objs[s.table.streams[sid]].Closed()
    ensures var s', o := s.Remove(sid), s.table.streams[sid];
            var x := s.table.objs[o];
            var x' := x.(closedBy := Some(Peer), pipe := Apply(x.pipe, Finish(None)));
            Leads(digest, s, s'.(rx := After(s.rx, Frame(Fin, sid, [])),
                                 table := s'.table.(objs := s.table.objs[o := x'])))
  {
    hide Leads, Encode, Apply;
    var f, o := Frame(Fin, sid, []), s.table.streams[sid];
    FrameArrives(digest, s, f);
    var s1 := s.(rx := Took(digest, s, f));
    var s2 := s.Remove(sid).(rx := After(s.rx, f).(at := PeerRemoved(o, None)));
    ThenStep(digest, s, s1, Event.Receive(Act(true)));
    assert s1.rx.todo[1..] == [];
    assert Step(digest, s1, Event.Receive(Act(true))) == s2;
    FinGoesIn(digest, s, s2, o);
    assert s2.rx.(at := Next) == After(s.rx, f);
  }

  lemma FinGoesIn(digest: Text -> Text, s: Session, s2: Session, o: nat)
    requires Leads(digest, s, s2) && s2.rx.at == PeerRemoved(o, None)
    requires o < |s2.table.objs| && !s2.table.objs[o].Closed()
    ensures var x := s2.table.objs[o];
            var x' := x.(closedBy := Some(Peer), pipe := Apply(x.pipe, Finish(None)));
            Leads(digest, s, s2.(rx := s2.rx.(at := Next), table := s2.table.(objs := s2.table.objs[o := x'])))
  {
    hide Leads, Apply;
    var objs, x := s2.table.objs, s2.table.objs[o];
    var x1 := x.(closedBy := Some(Peer));
    var s3 := s2.(rx := s2.rx.(at := PeerFinish(o, None)), table := s2.table.(objs := objs[o := x1]));
    ThenStep(digest, s, s2, Event.Receive(Continue));
    assert Step(digest, s2, Event.Receive(Continue)) == s3;
    ThenStep(digest, s, s3, Event.Receive(Continue));
    assert objs[o := x1][o := x1.(pipe := Apply(x.pipe, Finish(None)))] == objs[o := x1.(pipe := Apply(x.pipe, Finish(None)))];
  }

  // ---- A reader takes the next event ----

  /** The pipe with its next event in the reader's hands. */
  function InHand(p: Pipe, room: nat): Pipe
    requires p.queue != []
  {
    p.(reader := Got(room, Some(p.queue[0])), queue := p.queue[1..])
  }

  predicate Readable(s: Session, o: nat)
  {
    && o < |s.table.objs| && s.table.objs[o].handed
    && (var p := s.table.objs[o].pipe; p.reader.Idle? && p.buffer == [] && p.queue != [] && p.senderOpen)
  }

  function WithPipe(s: Session, o: nat, p: Pipe): Session
    requires o < |s.table.objs|
  {
    s.(table := s.table.(objs := s.table.objs[o := s.table.objs[o].(pipe := p)]))
  }

  lemma ReadStep(digest: Text -> Text, a: Session, s: Session, o: nat, p: Pipe, step: PipeStep)
    requires o < |s.table.objs| && s.table.objs[o].handed && Leads(digest, a, WithPipe(s, o, p)) && Enabled(p, step)
    requires step.Check? || step.Take? || step.Receive? || step.Restore?
    ensures Leads(digest, a, WithPipe(s, o, Apply(p, step)))
  {
    hide Leads, Apply, Enabled;
    ThenStep(digest, a, WithPipe(s, o, p), Api(ReadStream(o, step)));
    assert WithPipe(s, o, p).OnPipe(o, step) == WithPipe(s, o, Apply(p, step));
  }

  lemma EventInHand(digest: Text -> Text, a: Session, s: Session, o: nat, room: nat)
    requires Leads(digest, a, s) && Readable(s, o)
    ensures Leads(digest, a, WithPipe(s, o, InHand(s.table.objs[o].pipe, room)))
  {
    hide Leads, WithPipe;
    var p := s.table.objs[o].pipe;
    SamePipe(s, o);
    ReadStep(digest, a, s, o, p, PipeStep.Check(room));
    ReadStep(digest, a, s, o, p.(reader := Checked(room)), Take);
    ReadStep(digest, a, s, o, p.(reader := Holding(room)), PipeStep.Receive(false));
  }

  lemma SamePipe(s: Session, o: nat)
    requires o < |s.table.objs|
    ensures WithPipe(s, o, s.table.objs[o].pipe) == s
  {
    assert s.table.objs[o := s.table.objs[o]] == s.table.objs;
  }

  // ---- A client opens a stream, writes to it, closes it ----

  /** The client has one stream, has queued these frames, and has written this much. */
  ghost predicate Wrote(c: Session, frames: seq<Frame>, sent: seq<Byte>)
  {
    && !c.channel.gone && c.channel.frames == frames && c.table.opens == 1 && c.isClient
    && |c.table.objs| == 1 && c.table.objs[0].sid == 1 && c.table.objs[0].sent == sent
  }

  predicate InUse(c: Session) { c.table.objs != [] && c.table.objs[0].handed && !c.table.objs[0].Closed() }

  lemma StreamOpens(digest: Text -> Text, cap: nat, engine: Engine.State, order: seq<(Text, Text)>) returns (c: Session)
    requires cap > 0
    ensures Leads(digest, NewSession(true, cap, engine, order), c)
    ensures Wrote(c, [SettingsFrame(order), Frame(Syn, 1, [])], []) && InUse(c)
  {
    hide Leads, SettingsFrame;
    var init := NewSession(true, cap, engine, order);
    var c1 := Opened(init);
    assert Leads(digest, init, c1) by {
      LeadsOpened(digest, init);
    }
    FirstFrame(order);
    assert SendSyn(0) in c1.tasks;
    c := Step(digest, c1, RunTask(SendSyn(0)));
    ThenStep(digest, init, c1, RunTask(SendSyn(0)));
    assert c.channel.frames == [SettingsFrame(order)] + [Frame(Syn, 1, [])];
  }

  lemma LeadsOpened(digest: Text -> Text, s: Session)
    requires s.isClient && !s.Terminated() && s.table.streams == map[] && s.cap > 0 && s.table.nextId < 0xffff_ffff
    ensures Leads(digest, s, Opened(s))
  {
    hide Run, Opened;
    OpenRun(digest, s);
  }

  lemma DataQueued(digest: Text -> Text, init: Session, c: Session, frames: seq<Frame>, data: seq<Byte>)
      returns (c': Session)
    requires Leads(digest, init, c) && Wrote(c, frames, []) && InUse(c)
    ensures Leads(digest, init, c') && Wrote(c', frames + [Frame(Psh, 1, data)], data) && InUse(c')
  {
    hide Leads;
    var c1 := Step(digest, c, Api(WriteStream(0, data)));
    ThenStep(digest, init, c, Api(WriteStream(0, data)));
    assert SendPsh(0, data) in c1.tasks;
    c' := Step(digest, c1, RunTask(SendPsh(0, data)));
    ThenStep(digest, init, c1, RunTask(SendPsh(0, data)));
    assert [] + data == data;
  }

  lemma FinQueued(digest: Text -> Text, init: Session, c: Session, frames: seq<Frame>, data: seq<Byte>)
      returns (c': Session)
    requires Leads(digest, init, c) && Wrote(c, frames, data) && InUse(c)
    ensures Leads(digest, init, c') && Wrote(c', frames + [Frame(Fin, 1, [])], data)
  {
    hide Leads;
    var c1 := Step(digest, c, Api(CloseStream(0)));
    ThenStep(digest, init, c, Api(CloseStream(0)));
    assert Wrote(c1, frames, data) && RemoveSelf(0) in c1.tasks;
    c' := FinGoesOut(digest, init, c1, frames, data);
  }

  lemma FinGoesOut(digest: Text -> Text, init: Session, c: Session, frames: seq<Frame>, data: seq<Byte>)
      returns (c': Session)
    requires Leads(digest, init, c) && Wrote(c, frames, data) && RemoveSelf(0) in c.tasks
    ensures Leads(digest, init, c') && Wrote(c', frames + [Frame(Fin, 1, [])], data)
  {
    hide Leads;
    var c1 := Step(digest, c, RunTask(RemoveSelf(0)));
    ThenStep(digest, init, c, RunTask(RemoveSelf(0)));
    assert SendFin(0) in c1.tasks;
    c' := Step(digest, c1, RunTask(SendFin(0)));
    ThenStep(digest, init, c1, RunTask(SendFin(0)));
  }

  // ---- A writer under a scheme that does not pad ----

  const NoScheme := Factory(map[], [], 0, [])

  function Plain(fs: seq<Frame>): seq<WriterRuns.Op>
  {
    if fs == [] then []
    else Plain(fs[..|fs| - 1]) + [WriterRuns.Submit(fs[|fs| - 1], NoScheme, [])]
  }

  lemma {:induction false} PlainRun(isClient: bool, fs: seq<Frame>)
    requires AllFit(fs)
    ensures WriterRuns.Fair(isClient, Plain(fs))
    ensures var t := WriterRuns.Run(isClient, Plain(fs));
            t.submitted == fs && t.Wire() == EncodeAll(fs) && t.ws.buffer == [] && !t.ws.buffering
  {
    hide Encode, EncodeAll, WriterRuns.Fair, WriterRuns.Next, WriterRuns.Run;
    if fs == [] {
      PlainNothing(isClient);
    } else {
      var front, f := fs[..|fs| - 1], fs[|fs| - 1];
      PlainRun(isClient, front);
      assert fs == front + [f];
      RunSnoc(isClient, Plain(front), f);
      PlainCall(WriterRuns.Run(isClient, Plain(front)), f);
      EncodeAllSnoc(front, f);
    }
  }

  lemma PlainNothing(isClient: bool)
    ensures WriterRuns.Fair(isClient, []) && EncodeAll([]) == []
    ensures WriterRuns.Run(isClient, []) == WriterRuns.Trace(Writer.Fresh(isClient), [], [], [])
  {
  }

  lemma RunSnoc(isClient: bool, ops: seq<WriterRuns.Op>, f: Frame)
    requires WriterRuns.Fair(isClient, ops) && f.Fits()
    ensures var op := WriterRuns.Submit(f, NoScheme, []);
            && WriterRuns.Fair(isClient, ops + [op])
            && WriterRuns.Run(isClient, ops + [op]) == WriterRuns.Next(WriterRuns.Run(isClient, ops), op)
  {
    var op := WriterRuns.Submit(f, NoScheme, []);
    assert (ops + [op])[..|ops|] == ops;
    assert WriterRuns.SmallScheme(NoScheme);
    hide WriterRuns.SmallScheme, WriterRuns.Next;
  }

  lemma PlainCall(t: WriterRuns.Trace, f: Frame)
    requires t.ws.Valid() && !t.ws.buffering && t.ws.buffer == []
    ensures var t' := WriterRuns.Next(t, WriterRuns.Submit(f, NoScheme, []));
            && t'.Wire() == t.Wire() + Encode(f) && t'.submitted == t.submitted + [f]
            && t'.ws.buffer == [] && !t'.ws.buffering
  {
    hide Encode, Flat;
    assert [] + Encode(f) == Encode(f);
    FlatSnoc(t.records, Encode(f));
  }

  // ---- A server that has one stream ----

  /** A resting server that has received exactly these frames, with stream 1 open and unread. */
  ghost predicate Serves(s: Session, frames: seq<Frame>, pipe: Pipe)
  {
    && Resting(s.rx) && !s.Terminated() && !s.isClient && s.rx.engine.settingsReceived
    && s.rx.handled == frames && s.rx.received == EncodeAll(frames)
    && s.table.streams == map[1 := 0] && s.tasks == multiset{}
    && |s.table.objs| == 1 && s.table.objs[0] == Stream(1, None, pipe, 2, [], true)
  }

  lemma AfterFrames(rx: Receiver, frames: seq<Frame>, f: Frame)
    requires rx.handled == frames && rx.received == EncodeAll(frames)
    ensures After(rx, f).handled == frames + [f] && After(rx, f).received == EncodeAll(frames + [f])
  {
    EncodeAllSnoc(frames, f);
  }

  lemma ServerStarts(digest: Text -> Text, cap: nat, engine: Engine.State, order: seq<(Text, Text)>) returns (s: Session)
    requires Greets(order)
    ensures Leads(digest, NewSession(false, cap, engine, []), s)
    ensures Serves(s, [SettingsFrame(order), Frame(Syn, 1, [])], NewPipe())
  {
    hide Leads, Encode, EncodeAll, SettingsFrame;
    var init := NewSession(false, cap, engine, []);
    NoFrames();
    var s1 := Greeting(digest, init, order);
    var settings, syn := SettingsFrame(order), Frame(Syn, 1, []);
    AfterFrames(init.rx, [], settings);
    assert [] + [settings] == [settings] && [settings] + [syn] == [settings, syn];
    SynArrives(digest, s1, 1);
    AfterFrames(s1.rx, [settings], syn);
    s := s1.(rx := After(s1.rx, syn), table := s1.table.Insert(1, |s1.rx.handled| + 1, true));
    LeadsOn(digest, init, s1, s);
  }

  lemma NoFrames()
    ensures EncodeAll([]) == []
  {
  }

  lemma ServerGetsData(digest: Text -> Text, init: Session, s: Session, frames: seq<Frame>, data: seq<Byte>)
      returns (s': Session)
    requires Leads(digest, init, s) && Serves(s, frames, NewPipe()) && 0 < |data| < 0x1_0000
    ensures Leads(digest, init, s') && Serves(s', frames + [Frame(Psh, 1, data)], Apply(NewPipe(), Write(data)))
  {
    hide Leads, Encode, EncodeAll;
    var f := Frame(Psh, 1, data);
    DataArrives(digest, s, 1, data);
    AfterFrames(s.rx, frames, f);
    s' := s.(rx := After(s.rx, f), table := s.table.OnPipe(0, Write(data)));
    LeadsOn(digest, init, s, s');
  }

  /** A pipe whose data has all been read. */
  function Drained(data: seq<Byte>): Pipe { NewPipe().(accepted := data, delivered := data) }

  lemma ServerReadsData(digest: Text -> Text, init: Session, s: Session, frames: seq<Frame>, data: seq<Byte>)
      returns (s': Session)
    requires Leads(digest, init, s) && Serves(s, frames, Apply(NewPipe(), Write(data))) && data != []
    ensures Leads(digest, init, s') && Serves(s', frames, Drained(data))
  {
    hide Leads, EncodeAll;
    var p := s.table.objs[0].pipe;
    assert [] + [Data(data)] == [Data(data)] && [] + data == data;
    EventInHand(digest, init, s, 0, |data|);
    ReadStep(digest, init, s, 0, InHand(p, |data|), Restore);
    assert [Data(data)][1..] == [] && data[..|data|] == data && [] + data[|data|..] == [];
    s' := WithPipe(s, 0, Apply(InHand(p, |data|), Restore));
  }

  /** The end is in the reader's hands, and the read is about to report it. */
  lemma EndInHand(digest: Text -> Text, init: Session, s: Session, data: seq<Byte>) returns (s': Session)
    requires Leads(digest, init, s) && |s.table.objs| == 1 && s.table.objs[0].handed
    requires s.table.objs[0].pipe == Apply(Drained(data), Finish(None))
    ensures Leads(digest, init, s') && ReportsEof(s', 0, Restore)
    ensures s' == WithPipe(s, 0, s'.table.objs[0].pipe) && s'.table.objs[0].pipe.delivered == data
    ensures Apply(s'.table.objs[0].pipe, Restore).delivered == data
  {
    hide Leads;
    assert [] + [StreamEnd(None)] == [StreamEnd(None)];
    EventInHand(digest, init, s, 0, 1);
    s' := WithPipe(s, 0, InHand(s.table.objs[0].pipe, 1));
  }

  lemma ServerEndsByFin(digest: Text -> Text, init: Session, s: Session, frames: seq<Frame>, data: seq<Byte>)
      returns (s': Session)
    requires Leads(digest, init, s) && Serves(s, frames, Drained(data))
    ensures Leads(digest, init, s') && !s'.Terminated() && Resting(s'.rx) && ReportsEof(s', 0, Restore)
    ensures s'.rx.received == EncodeAll(frames + [Frame(Fin, 1, [])]) && |s'.table.objs| == 1
    ensures s'.table.objs[0].closedBy == Some(Peer) && Apply(s'.table.objs[0].pipe, Restore).delivered == data
    ensures s'.table.objs[0].sid == 1
  {
    hide Leads, EncodeAll, ReportsEof, Encode;
    var x := s.table.objs[0];
    var x' := x.(closedBy := Some(Peer), pipe := Apply(x.pipe, Finish(None)));
    var s1 := s.Remove(1);
    FinArrives(digest, s, 1);
    AfterFrames(s.rx, frames, Frame(Fin, 1, []));
    var s2 := s1.(rx := After(s.rx, Frame(Fin, 1, [])), table := s1.table.(objs := s.table.objs[0 := x']));
    LeadsOn(digest, init, s, s2);
    s' := EndInHand(digest, init, s2, data);
  }

  lemma ServerEndsBySession(digest: Text -> Text, init: Session, s: Session, frames: seq<Frame>, data: seq<Byte>)
      returns (s': Session)
    requires Leads(digest, init, s) && Serves(s, frames, Drained(data))
    ensures Leads(digest, init, s') && s'.Terminated() && ReportsEof(s', 0, Restore)
    ensures s'.rx.received == EncodeAll(frames) && |s'.table.objs| == 1
    ensures s'.table.objs[0].closedBy == Some(SessionEnd) && Apply(s'.table.objs[0].pipe, Restore).delivered == data
    ensures s'.table.objs[0].sid == 1
  {
    hide Leads, EncodeAll, ReportsEof, Apply;
    var s1 := Step(digest, s, Api(Terminate));
    ThenStep(digest, init, s, Api(Terminate));
    assert Drain in s1.tasks;
    var s2 := Step(digest, s1, RunTask(Drain));
    ThenStep(digest, init, s1, RunTask(Drain));
    DoomedOne(s1.table.streams, 1);
    assert CloseBySession(0, None) in s2.tasks;
    var s3 := SessionCloses(digest, init, s2);
    s' := EndInHand(digest, init, s3, data);
  }

  lemma DoomedOne(streams: map<U32, nat>, sid: U32)
    requires sid in streams
    ensures CloseBySession(streams[sid], None) in Doomed(streams)
  {
  }

  lemma SessionCloses(digest: Text -> Text, init: Session, s: Session) returns (s': Session)
    requires Leads(digest, init, s) && |s.table.objs| == 1 && !s.table.objs[0].Closed()
    requires CloseBySession(0, None) in s.tasks
    ensures Leads(digest, init, s') && s'.rx == s.rx && s'.table.closed == s.table.closed && |s'.table.objs| == 1
    ensures s'.table.objs[0] == s.table.objs[0].(closedBy := Some(SessionEnd), pipe := Apply(s.table.objs[0].pipe, Finish(None)))
  {
    hide Leads, Apply;
    var close, finish := RunTask(CloseBySession(0, None)), RunTask(FinishPipe(0, None));
    var s1 := Step(digest, s, close);
    ThenStep(digest, init, s, close);
    assert FinishPipe(0, None) in s1.tasks;
    s' := Step(digest, s1, finish);
    ThenStep(digest, init, s1, finish);
  }

  // ---- The two ends ----

  lemma Fits4(order: seq<(Text, Text)>, data: seq<Byte>)
    requires Greets(order) && |data| < 0x1_0000
    ensures AllFit([SettingsFrame(order), Frame(Syn, 1, []), Frame(Psh, 1, data), Frame(Fin, 1, [])])
    ensures AllFit([SettingsFrame(order), Frame(Syn, 1, []), Frame(Psh, 1, data)])
  {
    hide StringMaps.Print;
  }

  lemma ClientIsReached(digest: Text -> Text, cap: nat, engine: Engine.State, order: seq<(Text, Text)>, c: Session)
    requires Leads(digest, NewSession(true, cap, engine, order), c) && c.table.opens < IDS
    ensures ClientReached(digest, c)
  {
    hide Run, NewSession;
    var events: seq<Event> :| Run(digest, NewSession(true, cap, engine, order), events) == Some(c);
  }

  lemma ServerIsReached(digest: Text -> Text, cap: nat, engine: Engine.State, s: Session)
    requires Leads(digest, NewSession(false, cap, engine, []), s)
    ensures ServerReached(digest, s)
  {
    hide Run, NewSession;
    var events: seq<Event> :| Run(digest, NewSession(false, cap, engine, []), events) == Some(s);
  }

  lemma PlainConnection(c: Session, fs: seq<Frame>, s: Session)
    requires AllFit(fs) && fs <= c.channel.frames && s.rx.received == EncodeAll(fs)
    ensures Connected(c, Plain(fs), s)
    ensures fs == c.channel.frames && Resting(s.rx) ==> Settled(c, Plain(fs), s)
  {
    hide WriterRuns.Run, WriterRuns.Fair, EncodeAll, Plain;
    PlainRun(c.isClient, fs);
    NothingDecodes();
  }

  /** A whole conversation: a client writes any bytes that fit one frame and closes; the server reads
      exactly these and then end of file. */
  lemma Conversation(digest: Text -> Text, cap: nat, engine: Engine.State, order: seq<(Text, Text)>,
                     servers: Engine.State, data: seq<Byte>)
      returns (client: Session, ops: seq<WriterRuns.Op>, server: Session)
    requires cap > 0 && Greets(order) && 0 < |data| < 0x1_0000
    ensures ClientReached(digest, client) && ServerReached(digest, server)
    ensures Connected(client, ops, server) && Settled(client, ops, server)
    ensures |client.table.objs| == 1 && client.table.objs[0].sent == data && Fins(1, client.channel.frames) > 0
    ensures |server.table.objs| == 1 && server.table.objs[0].sid == 1 && server.table.objs[0].closedBy == Some(Peer)
    ensures !server.Terminated() && ReportsEof(server, 0, Restore)
    ensures Apply(server.table.objs[0].pipe, Restore).delivered == data
  {
    hide Leads, EncodeAll, Encode, ReportsEof, SettingsFrame, Connected, Settled, ClientReached, ServerReached, Apply,
         Fins, AllFit;
    var opening := [SettingsFrame(order), Frame(Syn, 1, [])];
    var middle := [SettingsFrame(order), Frame(Syn, 1, []), Frame(Psh, 1, data)];
    var all := [SettingsFrame(order), Frame(Syn, 1, []), Frame(Psh, 1, data), Frame(Fin, 1, [])];
    assert opening + [Frame(Psh, 1, data)] == middle && middle + [Frame(Fin, 1, [])] == all;
    var c0, s0 := NewSession(true, cap, engine, order), NewSession(false, cap, servers, []);
    client := StreamOpens(digest, cap, engine, order);
    client := DataQueued(digest, c0, client, opening, data);
    client := FinQueued(digest, c0, client, middle, data);
    ClientIsReached(digest, cap, engine, order, client);
    server := ServerStarts(digest, cap, servers, order);
    server := ServerGetsData(digest, s0, server, opening, data);
    server := ServerReadsData(digest, s0, server, middle, data);
    server := ServerEndsByFin(digest, s0, server, middle, data);
    ServerIsReached(digest, cap, servers, server);
    Fits4(order, data);
    ops := Plain(all);
    PlainConnection(client, all, server);
    Snoc(middle, Frame(Fin, 1, []), 1);
  }

  /** When the session ends a stream, end of file tells nothing: one and the same terminated server,
      whose reader has got end of file, fits a client that closed after all its data was read, and a
      client that queued more data and no FIN. */
  lemma SessionEndTellsNothing(digest: Text -> Text, cap: nat, engine: Engine.State, order: seq<(Text, Text)>,
                               servers: Engine.State, data: seq<Byte>)
      returns (closing: Session, writing: Session, ops: seq<WriterRuns.Op>, server: Session)
    requires cap > 0 && Greets(order) && 0 < |data| < 0x1_0000
    ensures ClientReached(digest, closing) && ClientReached(digest, writing) && ServerReached(digest, server)
    ensures Connected(closing, ops, server) && Connected(writing, ops, server)
    ensures |server.table.objs| == 1 && server.table.objs[0].sid == 1 && server.table.objs[0].closedBy == Some(SessionEnd)
    ensures server.Terminated() && ReportsEof(server, 0, Restore)
    ensures var delivered := Apply(server.table.objs[0].pipe, Restore).delivered;
            && |closing.table.objs| == 1 == |writing.table.objs|
            && Fins(1, closing.channel.frames) > 0 && closing.table.objs[0].sent == delivered
            && Fins(1, writing.channel.frames) == 0 && writing.table.objs[0].sent == delivered + data
  {
    hide Leads, EncodeAll, Encode, ReportsEof, SettingsFrame, Connected, Settled, ClientReached, ServerReached, Apply,
         Fins, AllFit;
    var opening := [SettingsFrame(order), Frame(Syn, 1, [])];
    var middle := [SettingsFrame(order), Frame(Syn, 1, []), Frame(Psh, 1, data)];
    assert opening + [Frame(Psh, 1, data)] == middle;
    var c0, s0 := NewSession(true, cap, engine, order), NewSession(false, cap, servers, []);
    var c := StreamOpens(digest, cap, engine, order);
    c := DataQueued(digest, c0, c, opening, data);
    closing := FinQueued(digest, c0, c, middle, data);
    writing := MoreQueued(digest, c0, c, middle, data);
    ClientIsReached(digest, cap, engine, order, closing);
    ClientIsReached(digest, cap, engine, order, writing);
    server := ServerStarts(digest, cap, servers, order);
    server := ServerGetsData(digest, s0, server, opening, data);
    server := ServerReadsData(digest, s0, server, middle, data);
    server := ServerEndsBySession(digest, s0, server, middle, data);
    ServerIsReached(digest, cap, servers, server);
    Fits4(order, data);
    ops := Plain(middle);
    PlainConnection(closing, middle, server);
    PlainConnection(writing, middle, server);
    Snoc(middle, Frame(Fin, 1, []), 1);
    NoFinYet(order, data);
  }

  lemma MoreQueued(digest: Text -> Text, init: Session, c: Session, frames: seq<Frame>, data: seq<Byte>)
      returns (c': Session)
    requires Leads(digest, init, c) && Wrote(c, frames, data) && InUse(c)
    ensures Leads(digest, init, c') && Wrote(c', frames + [Frame(Psh, 1, data)], data + data)
  {
    hide Leads;
    var c1 := Step(digest, c, Api(WriteStream(0, data)));
    ThenStep(digest, init, c, Api(WriteStream(0, data)));
    assert SendPsh(0, data) in c1.tasks;
    c' := Step(digest, c1, RunTask(SendPsh(0, data)));
    ThenStep(digest, init, c1, RunTask(SendPsh(0, data)));
  }

  lemma NoFinYet(order: seq<(Text, Text)>, data: seq<Byte>)
    ensures var psh := Frame(Psh, 1, data);
            Fins(1, [SettingsFrame(order), Frame(Syn, 1, []), psh] + [psh]) == 0
  {
    hide SettingsFrame, Fins, StringMaps.Print;
    var settings, syn, psh := SettingsFrame(order), Frame(Syn, 1, []), Frame(Psh, 1, data);
    NoFins();
    IsSettings(order);
    Snoc([], settings, 1);
    Snoc([settings], syn, 1);
    Snoc([settings, syn], psh, 1);
    Snoc([settings, syn, psh], psh, 1);
    assert [] + [settings] == [settings] && [settings] + [syn] == [settings, syn];
    assert [settings, syn] + [psh] == [settings, syn, psh];
  }

  lemma NoFins()
    ensures Fins(1, []) == 0
  {
  }

  lemma IsSettings(order: seq<(Text, Text)>)
    ensures SettingsFrame(order).cmd.Settings?
  {
  }

  // ---- A stream lost to a reused identifier ----

  /** A peer that uses an identifier again can make a server lose a stream: the first stream of that
      name is closed locally, its peer closes it too and opens another one, and then the removal that
      the first close still owed takes the new one out of the map. A termination does not find it. */
  lemma LostToReuse(digest: Text -> Text, cap: nat, engine: Engine.State, order: seq<(Text, Text)>)
      returns (s: Session)
    requires Greets(order)
    ensures ServerReached(digest, s) && s.table.drained && s.table.streams == map[] && s.table.closed
    ensures |s.table.objs| == 2 && Open(s, 1)
  {
    hide Leads, EncodeAll, Encode, SettingsFrame, ServerReached, Apply, Open;
    var init := NewSession(false, cap, engine, []);
    s := ServerStarts(digest, cap, engine, order);
    s := FirstStreamCloses(digest, init, s, [SettingsFrame(order), Frame(Syn, 1, [])]);
    s := SecondStreamOpens(digest, init, s);
    s := LateRemoval(digest, init, s);
    s := TerminationMisses(digest, init, s);
    ServerIsReached(digest, cap, engine, s);
  }

  /** The first stream is closed on both sides, its own removal still pending. */
  ghost predicate HalfRemoved(s: Session)
  {
    && Resting(s.rx) && !s.isClient && !s.Terminated() && s.rx.engine.settingsReceived
    && s.table.streams == map[] && s.tasks == multiset{RemoveSelf(0), NotifyIdle}
    && |s.table.objs| == 1 && s.table.objs[0].sid == 1 && s.table.objs[0].Closed()
  }

  lemma FirstStreamCloses(digest: Text -> Text, init: Session, s: Session, frames: seq<Frame>) returns (s': Session)
    requires Leads(digest, init, s) && Serves(s, frames, NewPipe())
    ensures Leads(digest, init, s') && HalfRemoved(s')
  {
    hide Leads, Encode, EncodeAll;
    var s1 := Step(digest, s, Api(CloseStream(0)));
    ThenStep(digest, init, s, Api(CloseStream(0)));
    assert s1.tasks == multiset{RemoveSelf(0)} && s1.table.streams - {1} == map[];
    LateFinArrives(digest, s1, 1);
    s' := s1.Remove(1).(rx := After(s1.rx, Frame(Fin, 1, [])));
    LeadsOn(digest, init, s1, s');
  }

  lemma SecondStreamOpens(digest: Text -> Text, init: Session, s: Session) returns (s': Session)
    requires Leads(digest, init, s) && HalfRemoved(s)
    ensures Leads(digest, init, s') && s'.tasks == s.tasks && Resting(s'.rx) && !s'.Terminated()
    ensures s'.table.streams == map[1 := 1] && |s'.table.objs| == 2 && s'.table.objs[0].sid == 1
    ensures s'.table.objs[1].sid == 1 && !s'.table.objs[1].Closed()
  {
    hide Leads, Encode;
    SynArrives(digest, s, 1);
    s' := s.(rx := After(s.rx, Frame(Syn, 1, [])), table := s.table.Insert(1, |s.rx.handled| + 1, true));
    LeadsOn(digest, init, s, s');
  }

  lemma LateRemoval(digest: Text -> Text, init: Session, s: Session) returns (s': Session)
    requires Leads(digest, init, s) && s.tasks == multiset{RemoveSelf(0), NotifyIdle} && Resting(s.rx) && !s.Terminated()
    requires s.table.streams == map[1 := 1] && |s.table.objs| == 2 && s.table.objs[0].sid == 1
    requires !s.table.objs[1].Closed()
    ensures Leads(digest, init, s') && Resting(s'.rx) && !s'.table.closed && s'.table.streams == map[]
    ensures |s'.table.objs| == 2 && !s'.table.objs[1].Closed()
    ensures forall t :: t in s'.tasks ==> !t.CloseBySession? && !t.UndoOpen?
  {
    hide Leads;
    s' := Step(digest, s, RunTask(RemoveSelf(0)));
    ThenStep(digest, init, s, RunTask(RemoveSelf(0)));
    assert s.table.streams - {1} == map[];
  }

  lemma TerminationMisses(digest: Text -> Text, init: Session, s: Session) returns (s': Session)
    requires Leads(digest, init, s) && Resting(s.rx) && !s.table.closed && s.table.streams == map[]
    requires |s.table.objs| == 2 && !s.table.objs[1].Closed()
    requires forall t :: t in s.tasks ==> !t.CloseBySession? && !t.UndoOpen?
    ensures Leads(digest, init, s') && s'.table.drained && s'.table.streams == map[] && s'.table.closed
    ensures |s'.table.objs| == 2 && Open(s', 1)
  {
    hide Leads;
    var s1 := Step(digest, s, Api(Terminate));
    ThenStep(digest, init, s, Api(Terminate));
    assert Drain in s1.tasks;
    s' := Step(digest, s1, RunTask(Drain));
    ThenStep(digest, init, s1, RunTask(Drain));
    NobodyDoomed();
  }

  lemma NobodyDoomed()
    ensures Doomed(map[]) == multiset{}
  {
    assert forall t :: t !in Doomed(map[]);
  }
}
