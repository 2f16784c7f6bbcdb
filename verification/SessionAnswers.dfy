/** What a session answers: the frames it queues besides the data and the ends of its streams. */
module SessionAnswers {
  import opened Bytes
  import opened Options
  import opened Texts
  import opened Frames
  import opened Engine
  import opened Pipes
  import opened Sessions
  import opened SessionSafety
  import opened SessionReceive
  import Padding
  import StringMaps

  // ---- What one step queues ----

  function ActionFrames(action: Action): seq<Frame>
  {
    match action
    case SendFrame(f) => [f]
    case SendFrameSync(f) => [f]
    case AlertAndFail(message) => [Frame(Alert, 0, message)]
    case _ => []
  }

  /** The frames an event puts on the queue while the writer lives. */
  function FramesNow(s: Session, ev: Event): seq<Frame>
    requires Possible(s, ev)
  {
    if s.channel.gone then []
    else
      match ev
      case Api(Handshake(o, error)) =>
        if s.rx.engine.peerVersion >= 2 then [Frame(SynAck, s.table.objs[o].sid, error)] else []
      case RunTask(SendSyn(o)) => [Frame(Syn, s.table.objs[o].sid, [])]
      case RunTask(SendPsh(o, data)) => [Frame(Psh, s.table.objs[o].sid, data)]
      case RunTask(SendFin(o)) => [Frame(Fin, s.table.objs[o].sid, [])]
      case Receive(Act(_)) => ActionFrames(s.rx.todo[0])
      case _ => []
  }

  lemma CallFrames(s: Session, call: Call)
    requires CallPossible(s, call)
    ensures CallStep(s, call).channel.frames == s.channel.frames + FramesNow(s, Api(call))
  {
    hide Apply, Enabled;
    assert s.channel.frames + [] == s.channel.frames;
  }

  lemma OpenTaskFrames(s: Session, s0: Session, t: Task)
    requires Possible(s0, RunTask(t)) && s == s0.(tasks := s0.tasks - multiset{t}) && IsOpenTask(t)
    ensures OpenTaskStep(s, t).channel.frames == s.channel.frames + FramesNow(s0, RunTask(t))
  {
    hide Ascii;
    assert s.channel.frames + [] == s.channel.frames;
  }

  lemma CloseTaskFrames(s: Session, s0: Session, t: Task)
    requires Possible(s0, RunTask(t)) && s == s0.(tasks := s0.tasks - multiset{t}) && !IsOpenTask(t)
    ensures CloseTaskStep(s, t).channel.frames == s.channel.frames + FramesNow(s0, RunTask(t))
  {
    hide Apply, Doomed;
    assert s.channel.frames + [] == s.channel.frames;
  }

  lemma ActionQueues(s: Session, action: Action, acked: bool)
    ensures ActionStep(s, action, acked).channel.frames
         == s.channel.frames + if s.channel.gone then [] else ActionFrames(action)
  {
    hide Ascii;
    assert s.channel.frames + [] == s.channel.frames;
  }

  lemma ContinueFrames(s: Session, at: At)
    requires AtInRange(at, |s.table.objs|) && !at.Next? && !at.Stopped?
    ensures (if IsPush(at) then PushStep(s, at) else LifeStep(s, at)).channel == s.channel
  {
    hide Apply, Accepts;
  }

  lemma ReceiveFrames(digest: Text -> Text, s: Session, progress: Progress)
    requires ProgressPossible(s, progress)
    ensures ReceiveStep(digest, s, progress).channel.frames == s.channel.frames + FramesNow(s, Event.Receive(progress))
  {
    hide HandleFrame, ActionStep, PushStep, LifeStep, Decode, ActionFrames;
    assert s.channel.frames + [] == s.channel.frames;
    match progress
    case Act(acked) => ActionQueues(s.(rx := s.rx.(todo := s.rx.todo[1..])), s.rx.todo[0], acked);
    case Continue => ContinueFrames(s, s.rx.at);
    case _ =>
  }

  lemma StepFrames(digest: Text -> Text, s: Session, ev: Event)
    requires Possible(s, ev)
    ensures Step(digest, s, ev).channel.frames == s.channel.frames + FramesNow(s, ev)
  {
    hide CallStep, OpenTaskStep, CloseTaskStep, ReceiveStep, FramesNow;
    match ev
    case Api(call) => CallFrames(s, call);
    case RunTask(t) =>
      if IsOpenTask(t) {
        OpenTaskFrames(s.(tasks := s.tasks - multiset{t}), s, t);
      } else {
        CloseTaskFrames(s.(tasks := s.tasks - multiset{t}), s, t);
      }
    case Receive(progress) => ReceiveFrames(digest, s, progress);
  }

  // ---- Answers to a stream's opening ----

  /** What the SYNACK frames of a stream say, in order. */
  function SynAcks(sid: U32, fs: seq<Frame>): seq<Text>
  {
    if fs == [] then []
    else
      SynAcks(sid, fs[..|fs| - 1]) +
      if fs[|fs| - 1].cmd.SynAck? && fs[|fs| - 1].sid == sid then [fs[|fs| - 1].data] else []
  }

  lemma SynAcksSnoc(sid: U32, fs: seq<Frame>, f: Frame)
    ensures SynAcks(sid, fs + [f]) == SynAcks(sid, fs) + if f.cmd.SynAck? && f.sid == sid then [f.data] else []
  {
    assert (fs + [f])[..|fs|] == fs;
  }

  /** What the event answers to the opening of stream `sid`: success is the empty text, and a peer
      below version 2 gets no answer. */
  function AnswerNow(s: Session, ev: Event, sid: U32): seq<Text>
  {
    if ev.Api? && ev.call.Handshake? && ev.call.o < |s.table.objs| && s.table.objs[ev.call.o].sid == sid &&
       s.rx.engine.peerVersion >= 2 && !s.channel.gone
    then [ev.call.error] else []
  }

  /** The answers given to the opening of stream `sid` in the course of a run. */
  function AnswerLog(digest: Text -> Text, init: Session, events: seq<Event>, sid: U32): seq<Text>
  {
    if events == [] then []
    else
      var front := events[..|events| - 1];
      AnswerLog(digest, init, front, sid) +
      match Run(digest, init, front)
      case None => []
      case Some(s) => AnswerNow(s, events[|events| - 1], sid)
  }

  /** Besides the handshake calls nothing queues a SYNACK. */
  lemma AnswerIsQueued(s: Session, ev: Event, sid: U32)
    requires Possible(s, ev) && Tracks(s)
    ensures SynAcks(sid, s.channel.frames + FramesNow(s, ev)) == SynAcks(sid, s.channel.frames) + AnswerNow(s, ev, sid)
  {
    hide Decode, Enabled, WorksOn;
    assert s.channel.frames + [] == s.channel.frames;
    assert SynAcks(sid, s.channel.frames) + [] == SynAcks(sid, s.channel.frames);
    if ev.Receive? && ev.progress.Act? {
      assert Asks(s.isClient, Last(s.rx.handled), s.rx.todo[0]);
    }
    if |FramesNow(s, ev)| == 1 {
      SynAcksSnoc(sid, s.channel.frames, FramesNow(s, ev)[0]);
      assert FramesNow(s, ev) == [FramesNow(s, ev)[0]];
    }
  }

  /** In every run of a server, the SYNACK frames of a stream on the queue are exactly the answers
      given to its opening while the peer's version was known, in order and word for word. */
  lemma {:induction false} AnswersQueued(digest: Text -> Text, init: Session, events: seq<Event>, sid: U32)
    requires Sound(init) && Tracks(init) && SynAcks(sid, init.channel.frames) == [] && Run(digest, init, events).Some?
    ensures Tracks(Run(digest, init, events).value)
    ensures SynAcks(sid, Run(digest, init, events).value.channel.frames) == AnswerLog(digest, init, events, sid)
  {
    hide Step, Possible, Sound, Tracks, FramesNow, AnswerNow;
    if events != [] {
      var front, ev := events[..|events| - 1], events[|events| - 1];
      var s := Run(digest, init, front).value;
      AnswersQueued(digest, init, front, sid);
      RunsSound(digest, init, front);
      TracksStep(digest, s, ev);
      StepFrames(digest, s, ev);
      AnswerIsQueued(s, ev, sid);
    }
  }

  // ---- Replies of the protocol ----

  /** The frames of the given kinds. */
  function Pick(kinds: set<Command>, fs: seq<Frame>): seq<Frame>
  {
    if fs == [] then []
    else Pick(kinds, fs[..|fs| - 1]) + if fs[|fs| - 1].cmd in kinds then [fs[|fs| - 1]] else []
  }

  const REPLIES: set<Command> := {HeartResponse, UpdatePaddingScheme, ServerSettings}

  lemma PickSnoc(kinds: set<Command>, fs: seq<Frame>, f: Frame)
    ensures Pick(kinds, fs + [f]) == Pick(kinds, fs) + if f.cmd in kinds then [f] else []
  {
    assert (fs + [f])[..|fs|] == fs;
  }

  lemma {:induction false} PickConcat(kinds: set<Command>, a: seq<Frame>, b: seq<Frame>)
    ensures Pick(kinds, a + b) == Pick(kinds, a) + Pick(kinds, b)
  {
    if b == [] {
      assert a + b == a;
    } else {
      var front, f := b[..|b| - 1], b[|b| - 1];
      assert a + b == (a + front) + [f] && b == front + [f];
      PickConcat(kinds, a, front);
      PickSnoc(kinds, a + front, f);
    }
  }

  lemma {:induction false} PickTwice(few: set<Command>, kinds: set<Command>, fs: seq<Frame>)
    requires few <= kinds
    ensures Pick(few, Pick(kinds, fs)) == Pick(few, fs)
  {
    if fs != [] {
      var front, f := fs[..|fs| - 1], fs[|fs| - 1];
      PickTwice(few, kinds, front);
      if f.cmd in kinds {
        PickSnoc(few, Pick(kinds, front), f);
      } else {
        assert Pick(kinds, front) + [] == Pick(kinds, front);
      }
    }
  }

  lemma {:induction false} ConverseSnoc(digest: Text -> Text, st: Engine.State, isClient: bool, fs: seq<Frame>, f: Frame)
    ensures var before := Converse(digest, st, isClient, fs);
            var (st', actions) := OnFrame(digest, before.0, isClient, f);
            Converse(digest, st, isClient, fs + [f]) == (st', before.1 + Sent(actions))
    decreases |fs|
  {
    hide OnFrame, Sent;
    if fs == [] {
      assert fs + [f] == [f];
      ConverseOne(digest, st, isClient, f);
      var actions := OnFrame(digest, st, isClient, f).1;
      assert [] + Sent(actions) == Sent(actions);
    } else {
      assert (fs + [f])[0] == fs[0] && (fs + [f])[1..] == fs[1..] + [f];
      var (st1, first) := OnFrame(digest, st, isClient, fs[0]);
      ConverseSnoc(digest, st1, isClient, fs[1..], f);
      var (st2, replies) := Converse(digest, st1, isClient, fs[1..]);
      Assoc(Sent(first), replies, Sent(OnFrame(digest, st2, isClient, f).1));
    }
  }

  /** The protocol state is that of the conversation so far; the replies queued are a prefix of those
      it calls for, and while the writer lives only those of the frame at hand are missing. */
  ghost predicate Answering(digest: Text -> Text, st: Engine.State, s: Session)
  {
    var talk := Converse(digest, st, s.isClient, s.rx.handled);
    && s.rx.engine == talk.0
    && Pick(REPLIES, s.channel.frames) <= talk.1
    && (!s.channel.gone ==> Pick(REPLIES, s.channel.frames) + Sent(s.rx.todo) == talk.1)
  }

  /** Steps that neither take a frame nor act on one. */
  lemma AnsweringAside(digest: Text -> Text, st: Engine.State, s: Session, s': Session, added: seq<Frame>)
    requires Answering(digest, st, s) && s'.isClient == s.isClient && s'.rx.engine == s.rx.engine
    requires s'.rx.handled == s.rx.handled && s'.rx.todo == s.rx.todo && (!s'.channel.gone ==> !s.channel.gone)
    requires s'.channel.frames == s.channel.frames + added && Pick(REPLIES, added) == []
    ensures Answering(digest, st, s')
  {
    hide Converse, Pick, Sent;
    PickConcat(REPLIES, s.channel.frames, added);
    assert Pick(REPLIES, s.channel.frames) + [] == Pick(REPLIES, s.channel.frames);
  }

  lemma NotAReply(f: Frame)
    requires !Reply(f)
    ensures Pick(REPLIES, [f]) == [] && Pick(REPLIES, []) == []
  {
    PickSnoc(REPLIES, [], f);
    assert [] + [f] == [f];
  }

  lemma OwnFramesNow(s: Session, ev: Event)
    requires Possible(s, ev) && !(ev.Receive? && ev.progress.Act?)
    ensures Pick(REPLIES, FramesNow(s, ev)) == []
  {
    hide Decode, Enabled, Pick;
    NotAReply(Frame(Waste, 0, []));
    if |FramesNow(s, ev)| == 1 {
      NotAReply(FramesNow(s, ev)[0]);
      assert FramesNow(s, ev) == [FramesNow(s, ev)[0]];
    }
  }

  lemma AnsweringFrame(digest: Text -> Text, st: Engine.State, s: Session, f: Frame)
    requires Answering(digest, st, s) && s.rx.todo == [] && HEADER_SIZE + |f.data| <= |s.rx.pending|
    ensures Answering(digest, st, s.(rx := HandleFrame(digest, s.rx, s.isClient, f)))
  {
    hide Converse, Pick, OnFrame;
    ConverseSnoc(digest, st, s.isClient, s.rx.handled, f);
    if f.cmd.Alert? {
      AlertSaysNothing(digest, s.rx.engine, s.isClient, f);
      assert Converse(digest, st, s.isClient, s.rx.handled).1 + [] == Converse(digest, st, s.isClient, s.rx.handled).1;
    }
    assert Pick(REPLIES, s.channel.frames) + [] == Pick(REPLIES, s.channel.frames);
  }

  lemma AlertSaysNothing(digest: Text -> Text, st: Engine.State, isClient: bool, f: Frame)
    requires f.cmd.Alert?
    ensures OnFrame(digest, st, isClient, f) == (st, [])
  {
  }

  lemma SentFirst(isClient: bool, f: Frame, todo: seq<Action>)
    requires todo != [] && AskedBy(isClient, f, todo)
    ensures Sent(todo) == Pick(REPLIES, ActionFrames(todo[0])) + Sent(todo[1..])
  {
    assert Asks(isClient, f, todo[0]);
    var frames := ActionFrames(todo[0]);
    if |frames| == 1 {
      PickSnoc(REPLIES, [], frames[0]);
      assert [] + [frames[0]] == frames;
    }
  }

  lemma AnsweringAct(digest: Text -> Text, st: Engine.State, s: Session, acked: bool)
    requires Answering(digest, st, s) && Tracks(s) && ProgressPossible(s, Act(acked))
    ensures Answering(digest, st, ReceiveStep(digest, s, Act(acked)))
  {
    hide Converse, Pick, Sent, ActionStep, Decode, WorksOn, AskedBy, ActionFrames;
    var s1 := s.(rx := s.rx.(todo := s.rx.todo[1..]));
    ActionRx(s1, s.rx.todo[0], acked);
    ActionQueues(s1, s.rx.todo[0], acked);
    ActionKeepsEnds(s1, s.rx.todo[0], acked);
    SentFirst(s.isClient, Last(s.rx.handled), s.rx.todo);
    if s.channel.gone {
      assert s.channel.frames + [] == s.channel.frames;
    } else {
      PickConcat(REPLIES, s.channel.frames, ActionFrames(s.rx.todo[0]));
      Assoc(Pick(REPLIES, s.channel.frames), Pick(REPLIES, ActionFrames(s.rx.todo[0])), Sent(s1.rx.todo));
    }
  }

  lemma ActionKeepsEnds(s: Session, action: Action, acked: bool)
    ensures var s' := ActionStep(s, action, acked);
            s'.isClient == s.isClient && s'.channel.gone == s.channel.gone
  {
    hide Ascii;
  }

  lemma StepSide(digest: Text -> Text, s: Session, ev: Event)
    requires Possible(s, ev) && !ev.Receive?
    ensures var s' := Step(digest, s, ev);
            s'.isClient == s.isClient && s'.rx == s.rx && (!s'.channel.gone ==> !s.channel.gone)
  {
    hide Apply, Ascii, Enabled, Doomed;
    match ev
    case Api(call) => return;
    case RunTask(t) =>
      if IsOpenTask(t) {
        return;
      }
      return;
  }

  lemma ContinueSide(digest: Text -> Text, s: Session, progress: Progress)
    requires ProgressPossible(s, progress) && !progress.Act? && !progress.TakeFrame?
    ensures var s' := ReceiveStep(digest, s, progress);
            s'.isClient == s.isClient && s'.rx.todo == s.rx.todo && s'.channel.gone == s.channel.gone
  {
    hide Apply, Accepts, Decode;
    match progress
    case Continue => return;
    case _ => return;
  }

  lemma AnsweringStep(digest: Text -> Text, st: Engine.State, s: Session, ev: Event)
    requires Answering(digest, st, s) && Tracks(s) && Possible(s, ev)
    ensures Answering(digest, st, Step(digest, s, ev))
  {
    hide Answering, Tracks, CallStep, OpenTaskStep, CloseTaskStep, FramesNow, Pick, Decode, HandleFrame;
    if ev.Receive? && ev.progress.Act? {
      AnsweringAct(digest, st, s, ev.progress.acked);
    } else if ev.Receive? && ev.progress.TakeFrame? {
      AnsweringTaken(digest, st, s);
    } else {
      hide Step, Possible;
      StepFrames(digest, s, ev);
      OwnFramesNow(s, ev);
      StepStays(digest, s, ev);
      AnsweringAside(digest, st, s, Step(digest, s, ev), FramesNow(s, ev));
    }
  }

  lemma AnsweringTaken(digest: Text -> Text, st: Engine.State, s: Session)
    requires Answering(digest, st, s) && ProgressPossible(s, TakeFrame)
    ensures Answering(digest, st, ReceiveStep(digest, s, TakeFrame))
  {
    hide Answering, HandleFrame;
    AnsweringFrame(digest, st, s, Decode(s.rx.pending).value);
  }

  lemma StepStays(digest: Text -> Text, s: Session, ev: Event)
    requires Possible(s, ev) && !(ev.Receive? && (ev.progress.Act? || ev.progress.TakeFrame?))
    ensures var s' := Step(digest, s, ev);
            && s'.isClient == s.isClient && s'.rx.engine == s.rx.engine
            && s'.rx.handled == s.rx.handled && s'.rx.todo == s.rx.todo && (!s'.channel.gone ==> !s.channel.gone)
  {
    hide CallStep, OpenTaskStep, CloseTaskStep, ReceiveStep;
    if ev.Receive? {
      ContinueSide(digest, s, ev.progress);
      ReceiveHandled(digest, s, ev.progress);
    } else {
      StepSide(digest, s, ev);
    }
  }

  /** In every run of either end, the protocol state is that of the conversation with the peer over the
      frames handled so far, and the replies on the queue are those the conversation calls for, in
      order: all of them when the loop is at rest and the writer lives, and never any other. */
  lemma {:induction false} AnsweringRuns(digest: Text -> Text, init: Session, events: seq<Event>, st: Engine.State)
    requires Sound(init) && Tracks(init) && Answering(digest, st, init) && Run(digest, init, events).Some?
    ensures Tracks(Run(digest, init, events).value)
    ensures Answering(digest, st, Run(digest, init, events).value)
  {
    hide Step, Possible, Sound, Tracks, Answering;
    if events != [] {
      var front, ev := events[..|events| - 1], events[|events| - 1];
      AnsweringRuns(digest, init, front, st);
      RunsSound(digest, init, front);
      TracksStep(digest, Run(digest, init, front).value, ev);
      AnsweringStep(digest, st, Run(digest, init, front).value, ev);
    }
  }

  lemma InitiallyAnswering(digest: Text -> Text, isClient: bool, cap: nat, engine: Engine.State, order: seq<(Text, Text)>)
    ensures Answering(digest, engine, NewSession(isClient, cap, engine, order))
  {
    hide SettingsFrame, Pick;
    var s := NewSession(isClient, cap, engine, order);
    NotAReply(Frame(Waste, 0, []));
    if isClient {
      FirstFrame(order);
      SettingsNoReply(order);
      NotAReply(SettingsFrame(order));
    }
  }

  lemma SettingsNoReply(order: seq<(Text, Text)>)
    ensures !Reply(SettingsFrame(order))
  {
    hide StringMaps.Print;
  }

  // ---- What the conversation calls for ----

  /** The answers to the heartbeats among the frames. */
  function Heartbeats(fs: seq<Frame>): seq<Frame>
  {
    if fs == [] then []
    else
      var f := fs[|fs| - 1];
      Heartbeats(fs[..|fs| - 1]) + if f.cmd.HeartRequest? then [Frame(HeartResponse, f.sid, [])] else []
  }

  lemma HeartOfFrame(digest: Text -> Text, st: Engine.State, isClient: bool, f: Frame)
    ensures Pick({HeartResponse}, Sent(OnFrame(digest, st, isClient, f).1))
         == if f.cmd.HeartRequest? then [Frame(HeartResponse, f.sid, [])] else []
  {
    hide Padding.NewFactory, DeclaredVersion, Ascii, OnSettings;
    var actions := OnFrame(digest, st, isClient, f).1;
    if f.cmd.Settings? {
      SettingsHearts(st, StringMaps.Read(f.data));
    } else if f.cmd.HeartRequest? {
      var g := Frame(HeartResponse, f.sid, []);
      assert Sent(actions) == [g] by {
        assert actions == [SendFrame(g)];
        assert [SendFrame(g)][1..] == [];
      }
      PickSnoc({HeartResponse}, [], g);
      assert [] + [g] == [g];
    } else {
      FrameSends(digest, st, isClient, f);
    }
  }

  lemma FrameSends(digest: Text -> Text, st: Engine.State, isClient: bool, f: Frame)
    requires !f.cmd.Settings? && !f.cmd.HeartRequest?
    ensures Sent(OnFrame(digest, st, isClient, f).1) == []
  {
    hide Padding.NewFactory, DeclaredVersion, Ascii, OnSettings;
    var actions := OnFrame(digest, st, isClient, f).1;
    FrameAsked(digest, st, isClient, f);
    if actions != [] {
      assert Asks(isClient, f, actions[0]);
      assert actions[1..] == [];
    }
  }

  lemma SettingsHearts(st: Engine.State, settings: map<Text, Text>)
    ensures Pick({HeartResponse}, Sent(OnSettings(st, settings).1)) == []
  {
    hide Sent, Pick;
    SettingsActions(st, settings);
    NoHearts(OnSettings(st, settings).1);
  }

  lemma SettingsActions(st: Engine.State, settings: map<Text, Text>)
    ensures forall i :: 0 <= i < |OnSettings(st, settings).1| ==>
              var action := OnSettings(st, settings).1[i];
              action.SendFrameSync? && !action.frame.cmd.HeartResponse?
  {
    hide DeclaredVersion, StringMaps.Print;
  }

  lemma {:induction false} NoHearts(actions: seq<Action>)
    requires forall i :: 0 <= i < |actions| ==> actions[i].SendFrameSync? && !actions[i].frame.cmd.HeartResponse?
    ensures Pick({HeartResponse}, Sent(actions)) == []
  {
    if actions != [] {
      NoHearts(actions[1..]);
      PickConcat({HeartResponse}, [actions[0].frame], Sent(actions[1..]));
      PickSnoc({HeartResponse}, [], actions[0].frame);
      assert [] + [actions[0].frame] == [actions[0].frame];
    }
  }

  lemma {:induction false} HeartsConverse(digest: Text -> Text, st: Engine.State, isClient: bool, fs: seq<Frame>)
    ensures Pick({HeartResponse}, Converse(digest, st, isClient, fs).1) == Heartbeats(fs)
  {
    hide OnFrame, Converse, Sent;
    if fs == [] {
      assert Converse(digest, st, isClient, fs).1 == [] by { Silence(digest, st, isClient); }
    } else {
      var front, f := fs[..|fs| - 1], fs[|fs| - 1];
      assert fs == front + [f];
      HeartsConverse(digest, st, isClient, front);
      ConverseSnoc(digest, st, isClient, front, f);
      var before := Converse(digest, st, isClient, front);
      HeartOfFrame(digest, before.0, isClient, f);
      PickConcat({HeartResponse}, before.1, Sent(OnFrame(digest, before.0, isClient, f).1));
    }
  }

  lemma Silence(digest: Text -> Text, st: Engine.State, isClient: bool)
    ensures Converse(digest, st, isClient, []) == (st, [])
  {
  }

  lemma {:induction false} PickPrefix(kinds: set<Command>, a: seq<Frame>, b: seq<Frame>)
    requires a <= b
    ensures Pick(kinds, a) <= Pick(kinds, b)
  {
    assert b == a + b[|a|..];
    PickConcat(kinds, a, b[|a|..]);
  }

  /** Heartbeats are answered, in order and under their own identifier: in every run of either end the
      responses on the queue are the first ones due, and all of them when the loop is at rest and the
      writer lives. */
  lemma HeartbeatsAnswered(digest: Text -> Text, isClient: bool, cap: nat, engine: Engine.State, order: seq<(Text, Text)>,
                           events: seq<Event>)
    requires Run(digest, NewSession(isClient, cap, engine, order), events).Some?
    ensures var s := Run(digest, NewSession(isClient, cap, engine, order), events).value;
            && Pick({HeartResponse}, s.channel.frames) <= Heartbeats(s.rx.handled)
            && (!s.channel.gone && s.rx.todo == [] ==> Pick({HeartResponse}, s.channel.frames) == Heartbeats(s.rx.handled))
  {
    var init := NewSession(isClient, cap, engine, order);
    InitiallySound(isClient, cap, engine, order);
    InitiallyAnswering(digest, isClient, cap, engine, order);
    assert Tracks(init);
    hide Sound, Tracks, Run, NewSession, Pick, Converse;
    AnsweringRuns(digest, init, events, engine);
    var s := Run(digest, init, events).value;
    var talk := Converse(digest, engine, s.isClient, s.rx.handled);
    HeartsConverse(digest, engine, s.isClient, s.rx.handled);
    PickTwice({HeartResponse}, REPLIES, s.channel.frames);
    PickPrefix({HeartResponse}, Pick(REPLIES, s.channel.frames), talk.1);
    if s.rx.todo == [] {
      assert Pick(REPLIES, s.channel.frames) + [] == Pick(REPLIES, s.channel.frames);
    }
  }

  // ---- Schemes and versions ----

  /** The scheme a client has adopted: that of the last update that is one. */
  function LastScheme(digest: Text -> Text, padding: Padding.Factory, fs: seq<Frame>): Padding.Factory
  {
    if fs == [] then padding
    else
      var f := fs[|fs| - 1];
      if f.cmd.UpdatePaddingScheme? && Padding.NewFactory(digest, f.data).Some? then Padding.NewFactory(digest, f.data).value
      else LastScheme(digest, padding, fs[..|fs| - 1])
  }

  /** A malformed update changes nothing, and a server never changes its scheme. */
  lemma {:induction false} SchemeInForce(digest: Text -> Text, st: Engine.State, isClient: bool, fs: seq<Frame>)
    ensures Converse(digest, st, isClient, fs).0.padding
         == if isClient then LastScheme(digest, st.padding, fs) else st.padding
  {
    hide Converse, OnFrame;
    if fs == [] {
      Silence(digest, st, isClient);
    } else {
      var front, f := fs[..|fs| - 1], fs[|fs| - 1];
      assert fs == front + [f];
      SchemeInForce(digest, st, isClient, front);
      ConverseSnoc(digest, st, isClient, front, f);
      SchemeOfFrame(digest, Converse(digest, st, isClient, front).0, isClient, f);
    }
  }

  lemma SchemeOfFrame(digest: Text -> Text, st: Engine.State, isClient: bool, f: Frame)
    ensures OnFrame(digest, st, isClient, f).0.padding
         == if isClient && f.cmd.UpdatePaddingScheme? && Padding.NewFactory(digest, f.data).Some?
            then Padding.NewFactory(digest, f.data).value else st.padding
  {
    hide DeclaredVersion, StringMaps.Print, StringMaps.Read, Ascii;
  }

  /** The frame declares a version that its receiver records: the client's settings to a server, if the
      version is at least 2, and the server's settings to a client. */
  function VersionIn(isClient: bool, f: Frame): Option<Byte>
  {
    if f.data == [] || f.cmd != (if isClient then ServerSettings else Settings) then None
    else
      match DeclaredVersion(StringMaps.Read(f.data))
      case None => None
      case Some(version) => if isClient || version >= 2 then Some(version) else None
  }

  function LastVersion(isClient: bool, version: Byte, fs: seq<Frame>): Byte
  {
    if fs == [] then version
    else
      match VersionIn(isClient, fs[|fs| - 1])
      case Some(last) => last
      case None => LastVersion(isClient, version, fs[..|fs| - 1])
  }

  /** The peer's version on record is the last one declared to this end. */
  lemma {:induction false} VersionInForce(digest: Text -> Text, st: Engine.State, isClient: bool, fs: seq<Frame>)
    ensures Converse(digest, st, isClient, fs).0.peerVersion == LastVersion(isClient, st.peerVersion, fs)
  {
    hide Converse, OnFrame, VersionIn;
    if fs == [] {
      Silence(digest, st, isClient);
    } else {
      var front, f := fs[..|fs| - 1], fs[|fs| - 1];
      assert fs == front + [f];
      VersionInForce(digest, st, isClient, front);
      ConverseSnoc(digest, st, isClient, front, f);
      VersionOfFrame(digest, Converse(digest, st, isClient, front).0, isClient, f);
    }
  }

  lemma VersionOfFrame(digest: Text -> Text, st: Engine.State, isClient: bool, f: Frame)
    ensures OnFrame(digest, st, isClient, f).0.peerVersion
         == match VersionIn(isClient, f) case Some(version) => version case None => st.peerVersion
  {
    hide DeclaredVersion, StringMaps.Print, StringMaps.Read, Ascii, Padding.NewFactory;
  }

  // ---- Alerts ----

  /** Nothing is handled behind an alert. */
  ghost predicate AlertLast(rx: Receiver)
  {
    forall i :: 0 <= i < |rx.handled| && rx.handled[i].cmd.Alert? ==> i == |rx.handled| - 1 && rx.at.Stopped?
  }

  lemma AlertLastStep(digest: Text -> Text, s: Session, ev: Event)
    requires AlertLast(s.rx) && Possible(s, ev)
    ensures AlertLast(Step(digest, s, ev).rx)
  {
    hide CallStep, OpenTaskStep, CloseTaskStep, ActionStep, PushStep, LifeStep, OnFrame, Decode;
    if !ev.Receive? {
      StepSide(digest, s, ev);
    } else if !ev.progress.TakeFrame? {
      ReceiveHandled(digest, s, ev.progress);
    }
  }

  /** An alert ends the receive loop: it is the last frame a session ever handles. */
  lemma {:induction false} AlertIsLast(digest: Text -> Text, init: Session, events: seq<Event>)
    requires AlertLast(init.rx) && Run(digest, init, events).Some?
    ensures AlertLast(Run(digest, init, events).value.rx)
  {
    hide Step, Possible, AlertLast;
    if events != [] {
      var front := events[..|events| - 1];
      AlertIsLast(digest, init, front);
      AlertLastStep(digest, Run(digest, init, front).value, events[|events| - 1]);
    }
  }
}
