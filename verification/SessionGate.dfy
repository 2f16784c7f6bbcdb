/** The settings gate of a server session, over whole runs. */
module SessionGate {
  import opened Texts
  import opened Frames
  import opened Engine
  import opened Pipes
  import opened Sessions
  import opened SessionSafety
  import opened SessionReceive
  import Padding
  import StringMaps

  /** The client's settings are among the frames. */
  predicate SeenSettings(fs: seq<Frame>)
  {
    fs != [] && (SeenSettings(fs[..|fs| - 1]) || (Last(fs).cmd.Settings? && Last(fs).data != []))
  }

  /** Some SYN came before the client's settings. */
  predicate EarlySyn(fs: seq<Frame>)
  {
    fs != [] && (EarlySyn(fs[..|fs| - 1]) || (Last(fs).cmd.Syn? && !SeenSettings(fs[..|fs| - 1])))
  }

  ghost predicate Has(fs: seq<Frame>, cmd: Command)
  {
    exists i :: 0 <= i < |fs| && fs[i].cmd == cmd
  }

  /** A stream is about to be created. */
  ghost predicate CreatesNext(rx: Receiver)
  {
    rx.at.Creating? || exists i :: 0 <= i < |rx.todo| && rx.todo[i].EnsureIncomingStream?
  }

  /** The receive loop is about to send its alert and stop. */
  ghost predicate AlertNext(rx: Receiver)
  {
    rx.at.Next? && |rx.todo| == 1 && rx.todo[0].AlertAndFail?
  }

  /** No stream exists, or is about to, before the settings; an early SYN stops the loop. */
  ghost predicate RxGate(rx: Receiver, streams: nat)
  {
    && rx.engine.settingsReceived == SeenSettings(rx.handled)
    && (!rx.engine.settingsReceived ==> streams == 0 && !CreatesNext(rx))
    && (EarlySyn(rx.handled) ==> !rx.engine.settingsReceived && (rx.at.Stopped? || AlertNext(rx)))
  }

  /** The alert of an early SYN was queued, and SYNACK answers only a version of at least 2. */
  ghost predicate ChannelGate(rx: Receiver, channel: Channel)
  {
    && (EarlySyn(rx.handled) && rx.at.Stopped? ==> channel.gone || Has(channel.frames, Alert))
    && (rx.engine.peerVersion == 0 || rx.engine.peerVersion >= MIN_PROTOCOL_VERSION)
    && (Has(channel.frames, SynAck) ==> rx.engine.peerVersion >= MIN_PROTOCOL_VERSION)
  }

  ghost predicate Gate(s: Session)
  {
    && !s.isClient
    && OpenLock !in s.tasks
    && RxGate(s.rx, |s.table.objs|)
    && ChannelGate(s.rx, s.channel)
  }

  lemma SendGate(rx: Receiver, channel: Channel, f: Frame)
    requires ChannelGate(rx, channel) && (f.cmd.SynAck? ==> rx.engine.peerVersion >= MIN_PROTOCOL_VERSION)
    ensures ChannelGate(rx, channel.Send(f))
  {
    var frames := channel.Send(f).frames;
    if Has(channel.frames, Alert) {
      var i :| 0 <= i < |channel.frames| && channel.frames[i].cmd == Alert;
      assert frames[i].cmd == Alert;
    }
  }

  lemma GateCall(s: Session, call: Call)
    requires Gate(s) && CallPossible(s, call)
    ensures Gate(CallStep(s, call))
  {
    hide RxGate, ChannelGate, Apply, Enabled;
    match call
    case Handshake(o, error) =>
      if s.rx.engine.peerVersion >= MIN_PROTOCOL_VERSION {
        SendGate(s.rx, s.channel, Frame(SynAck, s.table.objs[o].sid, error));
      }
      return;
    case WriterExits => WriterGone(s.rx, s.channel); return;
    case _ => return;
  }

  lemma WriterGone(rx: Receiver, channel: Channel)
    requires ChannelGate(rx, channel)
    ensures ChannelGate(rx, channel.(gone := true))
  {
  }

  lemma GateOpenTask(s: Session, t: Task)
    requires Gate(s) && IsOpenTask(t) && !t.OpenLock? && TaskInRange(t, |s.table.objs|)
    ensures Gate(OpenTaskStep(s, t))
  {
    hide RxGate, ChannelGate, Ascii;
    SendGate(s.rx, s.channel, Frame(Syn, s.table.objs[t.o].sid, []));
    if t.SendPsh? {
      SendGate(s.rx, s.channel, Frame(Psh, s.table.objs[t.o].sid, t.data));
    }
  }

  lemma GateCloseTask(s: Session, t: Task)
    requires Gate(s) && !IsOpenTask(t) && TaskInRange(t, |s.table.objs|)
    ensures Gate(CloseTaskStep(s, t))
  {
    hide RxGate, ChannelGate, Apply;
    if t.SendFin? {
      SendGate(s.rx, s.channel, Frame(Fin, s.table.objs[t.o].sid, []));
      FinLogged(s.rx, s.channel.Send(Frame(Fin, s.table.objs[t.o].sid, [])), s.channel.finLog + [t.o]);
    } else if t.Drain? {
      assert OpenLock !in Doomed(s.table.streams);
    }
  }

  lemma FinLogged(rx: Receiver, channel: Channel, finLog: seq<nat>)
    requires ChannelGate(rx, channel)
    ensures ChannelGate(rx, channel.(finLog := finLog))
  {
  }

  // ---- The receive loop ----

  lemma FrontOf(fs: seq<Frame>, f: Frame)
    ensures (fs + [f])[..|fs + [f]| - 1] == fs && Last(fs + [f]) == f
  {
  }

  lemma SettingsGate(st: Engine.State, settings: map<Text, Text>)
    ensures var (st', actions) := OnSettings(st, settings);
            && st'.settingsReceived
            && (st'.peerVersion == st.peerVersion || st'.peerVersion >= MIN_PROTOCOL_VERSION)
            && forall i :: 0 <= i < |actions| ==> actions[i].SendFrameSync?
  {
    hide DeclaredVersion, StringMaps.Print;
  }

  /** What a frame does to the gate of a server that has not stopped. */
  lemma FrameGate(digest: Text -> Text, st: Engine.State, f: Frame)
    ensures var (st', actions) := OnFrame(digest, st, false, f);
            && (st'.settingsReceived <==> st.settingsReceived || (f.cmd.Settings? && f.data != []))
            && (st'.peerVersion == st.peerVersion || st'.peerVersion >= MIN_PROTOCOL_VERSION)
            && (f.cmd.Syn? && !st.settingsReceived ==> |actions| == 1 && actions[0].AlertAndFail?)
            && (!st'.settingsReceived ==> forall i :: 0 <= i < |actions| ==> !actions[i].EnsureIncomingStream?)
  {
    hide OnSettings, Ascii, Padding.NewFactory;
    SettingsGate(st, StringMaps.Read(f.data));
  }

  lemma GateFrame(digest: Text -> Text, rx: Receiver, f: Frame, streams: nat)
    requires RxGate(rx, streams) && rx.at.Next? && rx.todo == [] && HEADER_SIZE + |f.data| <= |rx.pending|
    ensures RxGate(HandleFrame(digest, rx, false, f), streams)
  {
    hide OnFrame;
    FrameGate(digest, rx.engine, f);
    FrontOf(rx.handled, f);
  }

  lemma GateFrameChannel(digest: Text -> Text, rx: Receiver, f: Frame, streams: nat, channel: Channel)
    requires RxGate(rx, streams) && ChannelGate(rx, channel)
    requires rx.at.Next? && rx.todo == [] && HEADER_SIZE + |f.data| <= |rx.pending|
    ensures ChannelGate(HandleFrame(digest, rx, false, f), channel)
  {
    hide OnFrame;
    FrameGate(digest, rx.engine, f);
    FrontOf(rx.handled, f);
  }

  /** An action taken off the list keeps the gate, except that an alert must now be sent. */
  lemma GateTake(rx: Receiver, streams: nat)
    requires RxGate(rx, streams) && rx.at.Next? && rx.todo != []
    ensures EarlySyn(rx.handled) ==> rx.todo[0].AlertAndFail?
    ensures !EarlySyn(rx.handled) ==> RxGate(rx.(todo := rx.todo[1..]), streams)
    ensures rx.todo[0].EnsureIncomingStream? ==> rx.engine.settingsReceived
    ensures RxGate(rx.(todo := rx.todo[1..], at := Stopped), streams)
  {
  }

  lemma AlertSent(rx: Receiver, channel: Channel, f: Frame)
    requires ChannelGate(rx, channel) && f.cmd.Alert?
    ensures ChannelGate(rx.(at := Stopped), channel.Send(f))
  {
    SendGate(rx, channel, f);
    var frames := channel.Send(f).frames;
    assert !channel.gone ==> frames[|frames| - 1].cmd == Alert;
  }

  lemma GotoGate(rx: Receiver, streams: nat, channel: Channel, at: At)
    requires RxGate(rx, streams) && ChannelGate(rx, channel) && !EarlySyn(rx.handled)
    requires at.Creating? ==> rx.engine.settingsReceived
    ensures RxGate(rx.(at := at), streams) && ChannelGate(rx.(at := at), channel)
  {
  }

  lemma GateAction(s: Session, action: Action, acked: bool)
    requires !s.isClient && OpenLock !in s.tasks && s.rx.at.Next? && ChannelGate(s.rx, s.channel)
    requires RxGate(s.rx, |s.table.objs|) && !EarlySyn(s.rx.handled)
    requires action.EnsureIncomingStream? ==> s.rx.engine.settingsReceived
    requires action.SendFrame? || action.SendFrameSync? ==> !action.frame.cmd.SynAck?
    ensures Gate(ActionStep(s, action, acked))
  {
    hide RxGate, ChannelGate, Ascii;
    var s' := ActionStep(s, action, acked);
    if action.SendFrame? || action.SendFrameSync? {
      SendGate(s.rx, s.channel, action.frame);
    } else if action.AlertAndFail? {
      SendGate(s.rx, s.channel, Frame(Alert, 0, action.message));
    }
    GotoGate(s.rx, |s.table.objs|, s'.channel, s'.rx.at);
  }

  lemma GateAct(s: Session, acked: bool)
    requires Gate(s) && Tracks(s) && s.rx.at.Next? && s.rx.todo != []
    ensures Gate(ActionStep(s.(rx := s.rx.(todo := s.rx.todo[1..])), s.rx.todo[0], acked))
  {
    assert Asks(s.isClient, Last(s.rx.handled), s.rx.todo[0]);
    hide RxGate, Tracks, Ascii;
    var rx := s.rx.(todo := s.rx.todo[1..]);
    GateTake(s.rx, |s.table.objs|);
    if EarlySyn(s.rx.handled) {
      AlertSent(rx, s.channel, Frame(Alert, 0, s.rx.todo[0].message));
    } else {
      GateAction(s.(rx := rx), s.rx.todo[0], acked);
    }
  }

  lemma GateContinue(digest: Text -> Text, s: Session)
    requires Gate(s) && ProgressPossible(s, Continue)
    ensures Gate(ReceiveStep(digest, s, Continue))
  {
    assert !EarlySyn(s.rx.handled);
    assert s.rx.at.Creating? ==> s.rx.engine.settingsReceived;
    hide ChannelGate, Apply;
    var s' := ReceiveStep(digest, s, Continue);
    ReceiveHandled(digest, s, Continue);
    GotoGate(s.rx, |s.table.objs|, s.channel, s'.rx.at);
    match s.rx.at
    case Creating(sid) => return;
    case _ => return;
  }

  lemma GateReceive(digest: Text -> Text, s: Session, progress: Progress)
    requires Gate(s) && Tracks(s) && ProgressPossible(s, progress)
    ensures Gate(ReceiveStep(digest, s, progress))
  {
    hide HandleFrame, ActionStep, PushStep, LifeStep, Tracks;
    match progress
    case Arrive(chunk) => return;
    case TakeFrame =>
      var f := Decode(s.rx.pending).value;
      GateFrame(digest, s.rx, f, |s.table.objs|);
      GateFrameChannel(digest, s.rx, f, |s.table.objs|, s.channel);
      return;
    case Act(acked) => GateAct(s, acked); return;
    case Continue => GateContinue(digest, s); return;
    case Fail => return;
  }

  lemma GateStep(digest: Text -> Text, s: Session, ev: Event)
    requires Gate(s) && Tracks(s) && Possible(s, ev)
    ensures Gate(Step(digest, s, ev))
  {
    hide RxGate, ChannelGate, Tracks, CallStep, OpenTaskStep, CloseTaskStep, ReceiveStep;
    match ev
    case Api(call) => GateCall(s, call);
    case RunTask(t) =>
      var s' := s.(tasks := s.tasks - multiset{t});
      if IsOpenTask(t) {
        GateOpenTask(s', t);
      } else {
        GateCloseTask(s', t);
      }
    case Receive(progress) => GateReceive(digest, s, progress);
  }

  lemma {:induction false} GateRun(digest: Text -> Text, init: Session, events: seq<Event>)
    requires Sound(init) && Tracks(init) && Run(digest, init, events).Some?
    ensures Tracks(Run(digest, init, events).value)
    ensures Gate(init) ==> Gate(Run(digest, init, events).value)
  {
    hide Step, Possible, Sound, Tracks, Gate;
    if events != [] {
      var front, last := events[..|events| - 1], events[|events| - 1];
      var s := Run(digest, init, front).value;
      GateRun(digest, init, front);
      RunsSound(digest, init, front);
      TracksStep(digest, s, last);
      if Gate(init) {
        GateStep(digest, s, last);
      }
    }
  }

  /** On a fresh server session fed any frames: no stream exists before a non-empty Settings frame;
      a SYN before that ends the run with an alert, and no stream is ever created; SYNACK is sent
      only once the recorded peer version is at least 2. */
  lemma SettingsGateHolds(digest: Text -> Text, cap: nat, padding: Padding.Factory, events: seq<Event>)
    requires Run(digest, NewSession(false, cap, NewState(padding), []), events).Some?
    ensures var s := Run(digest, NewSession(false, cap, NewState(padding), []), events).value;
            && (!SeenSettings(s.rx.handled) ==> s.table.objs == [])
            && (EarlySyn(s.rx.handled) ==> s.table.objs == [] && (s.rx.at.Stopped? || AlertNext(s.rx)))
            && (EarlySyn(s.rx.handled) && s.rx.at.Stopped? ==> s.channel.gone || Has(s.channel.frames, Alert))
            && (Has(s.channel.frames, SynAck) ==> s.rx.engine.peerVersion >= MIN_PROTOCOL_VERSION)
  {
    InitiallySound(false, cap, NewState(padding), []);
    GateRun(digest, NewSession(false, cap, NewState(padding), []), events);
  }
}
