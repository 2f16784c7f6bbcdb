/** What the receive loop does with a frame: stream isolation and the settings gate. */
module SessionReceive {
  import opened Bytes
  import opened Options
  import opened Texts
  import opened Frames
  import opened Engine
  import opened Pipes
  import opened Sessions
  import opened SessionSafety
  import Padding
  import StringMaps

  // ---- Every action under way belongs to the last frame taken ----

  /** Frames the protocol engine sends by itself. */
  predicate Quiet(f: Frame)
  {
    Reply(f) || f.cmd.Alert?
  }

  predicate Reply(f: Frame)
  {
    f.cmd.HeartResponse? || f.cmd.UpdatePaddingScheme? || f.cmd.ServerSettings?
  }

  /** The frame ends the stream `sid` from the peer's side. */
  predicate Ends(f: Frame, sid: U32)
  {
    f.sid == sid && (f.cmd.Fin? || (f.cmd.SynAck? && f.data != []))
  }

  /** What a frame that ends a stream says about it: nothing, or why the peer refused it. */
  function EndErrorOf(f: Frame): Option<Error>
  {
    if f.cmd.SynAck? then Some(Ascii("remote: ") + f.data) else None
  }

  /** Frame `f` is what asks for `action`. */
  ghost predicate Asks(isClient: bool, f: Frame, action: Action)
  {
    match action
    case SendFrame(g) => f.cmd.HeartRequest? && g == Frame(HeartResponse, f.sid, [])
    case SendFrameSync(g) => Reply(g) && f.cmd.Settings? && !isClient
    case PushStreamData(sid, data) => f == Frame(Psh, sid, data) && data != []
    case EnsureIncomingStream(sid) => f.cmd.Syn? && f.sid == sid && !isClient
    case CloseLocalStream(sid) => Ends(f, sid) && f.cmd.Fin?
    case CloseRemoteStream(sid, message) => Ends(f, sid) && f.cmd.SynAck? && message == f.data
    case ReleaseWriteBuffering => false
    case AlertAndFail(_) => f.cmd.Syn? && !isClient
  }

  ghost predicate AskedBy(isClient: bool, f: Frame, todo: seq<Action>)
  {
    && (forall i :: 0 <= i < |todo| ==> Asks(isClient, f, todo[i]))
    && (f.cmd.Settings? || |todo| <= 1)
  }

  lemma SettingsAsked(st: Engine.State, isClient: bool, f: Frame)
    requires f.cmd.Settings? && !isClient
    ensures AskedBy(isClient, f, OnSettings(st, StringMaps.Read(f.data)).1)
  {
    hide DeclaredVersion, StringMaps.Print;
  }

  lemma FrameAsked(digest: Text -> Text, st: Engine.State, isClient: bool, f: Frame)
    ensures AskedBy(isClient, f, OnFrame(digest, st, isClient, f).1)
  {
    hide OnSettings, Ascii, Padding.NewFactory, DeclaredVersion;
    if f.cmd.Settings? && !isClient {
      SettingsAsked(st, isClient, f);
    }
  }

  /** The actions of the frames that move data or end a stream. */
  lemma FrameActions(digest: Text -> Text, st: Engine.State, isClient: bool, f: Frame)
    ensures var todo := OnFrame(digest, st, isClient, f).1;
            && (f.cmd.Psh? ==> todo == if f.data == [] then [] else [PushStreamData(f.sid, f.data)])
            && (Ends(f, f.sid) ==> |todo| == 1 && (todo[0].CloseLocalStream? || todo[0].CloseRemoteStream?) && todo[0].sid == f.sid)
  {
    hide OnSettings, Ascii, Padding.NewFactory, DeclaredVersion;
  }

  /** Where the receive loop stands fits the frame `f` it is working on. */
  ghost predicate WorksOn(isClient: bool, objs: seq<Stream>, f: Frame, at: At)
    requires AtInRange(at, |objs|)
  {
    match at
    case Creating(sid) => f.cmd.Syn? && f.sid == sid && !isClient
    case PushFound(o, data) => f == Frame(Psh, objs[o].sid, data)
    case PushChecked(o, data) => f == Frame(Psh, objs[o].sid, data)
    case PushPipe(o, data) => f == Frame(Psh, objs[o].sid, data)
    case PushFailed(o) => f.cmd.Psh? && f.sid == objs[o].sid
    case PeerRemoved(o, error) => Ends(f, objs[o].sid) && error == EndErrorOf(f)
    case PeerFinish(o, error) => Ends(f, objs[o].sid) && error == EndErrorOf(f)
    case _ => true
  }

  /** Between two frames nothing is left to do; otherwise everything belongs to the last frame. */
  ghost predicate Tracks(s: Session)
  {
    && AtInRange(s.rx.at, |s.table.objs|)
    && (!s.rx.at.Next? && !s.rx.at.Stopped? ==> s.rx.todo == [] && s.rx.handled != [])
    && (s.rx.todo != [] ==> s.rx.handled != [])
    && (s.rx.todo != [] && s.rx.at.Stopped? ==> Last(s.rx.handled).cmd.Settings?)
    && (s.rx.handled != [] ==>
          && AskedBy(s.isClient, Last(s.rx.handled), s.rx.todo)
          && WorksOn(s.isClient, s.table.objs, Last(s.rx.handled), s.rx.at))
  }

  function Last(fs: seq<Frame>): Frame
    requires fs != []
  {
    fs[|fs| - 1]
  }

  /** Streams that moved forward do not disturb the receive loop. */
  lemma TracksGrows(s: Session, s': Session)
    requires Tracks(s) && Grows(s.table.objs, s'.table.objs)
    requires s'.rx == s.rx && s'.isClient == s.isClient
    ensures Tracks(s')
  {
    hide AskedBy;
  }

  lemma TracksFrame(digest: Text -> Text, s: Session, f: Frame)
    requires Tracks(s) && s.rx.at.Next? && s.rx.todo == [] && HEADER_SIZE + |f.data| <= |s.rx.pending|
    ensures Tracks(s.(rx := HandleFrame(digest, s.rx, s.isClient, f)))
  {
    hide OnFrame, AskedBy;
    FrameAsked(digest, s.rx.engine, s.isClient, f);
    assert AskedBy(s.isClient, f, []) by {
      AskedNothing(s.isClient, f);
    }
  }

  lemma AskedNothing(isClient: bool, f: Frame)
    ensures AskedBy(isClient, f, [])
  {
  }

  lemma TracksGoto(s: Session, s': Session)
    requires Tracks(s) && s.rx.handled != [] && s'.isClient == s.isClient && s'.table.objs == s.table.objs
    requires s'.rx == s.rx.(at := s'.rx.at) && AtInRange(s'.rx.at, |s'.table.objs|)
    requires WorksOn(s.isClient, s.table.objs, Last(s.rx.handled), s'.rx.at)
    requires s.rx.todo != [] ==> s'.rx.at.Next? || (s'.rx.at.Stopped? && Last(s.rx.handled).cmd.Settings?)
    ensures Tracks(s')
  {
    hide AskedBy, WorksOn;
  }

  lemma TracksAction(s: Session, action: Action, acked: bool)
    requires Tracks(s) && s.rx.at.Next? && s.rx.handled != [] && MapOk(s.table.streams, s.table.objs)
    requires Asks(s.isClient, Last(s.rx.handled), action) && (s.rx.todo != [] ==> action.SendFrameSync?)
    ensures Tracks(ActionStep(s, action, acked))
  {
    hide Tracks, Ascii, MapOk;
    var s' := ActionStep(s, action, acked);
    if action.PushStreamData? || action.CloseLocalStream? || action.CloseRemoteStream? {
      TracksRouted(s, action, acked);
    } else {
      TracksGoto(s, s');
    }
  }

  lemma TracksRouted(s: Session, action: Action, acked: bool)
    requires Tracks(s) && s.rx.at.Next? && s.rx.handled != [] && MapOk(s.table.streams, s.table.objs)
    requires action.PushStreamData? || action.CloseLocalStream? || action.CloseRemoteStream?
    requires Asks(s.isClient, Last(s.rx.handled), action) && s.rx.todo == []
    ensures Tracks(ActionStep(s, action, acked))
  {
    hide Tracks, Ascii;
    TracksGoto(s, ActionStep(s, action, acked));
  }

  lemma TracksPush(s: Session)
    requires Tracks(s) && s.rx.handled != [] && IsPush(s.rx.at)
    ensures Tracks(PushStep(s, s.rx.at))
  {
    hide AskedBy, Apply;
  }

  lemma TracksLife(s: Session)
    requires Tracks(s) && s.rx.handled != [] && (s.rx.at.Creating? || s.rx.at.PeerRemoved? || s.rx.at.PeerFinish?)
    ensures Tracks(LifeStep(s, s.rx.at))
  {
    hide AskedBy, Apply;
  }

  lemma TracksReceive(digest: Text -> Text, s: Session, progress: Progress)
    requires Tracks(s) && Sound(s) && ProgressPossible(s, progress)
    ensures Tracks(ReceiveStep(digest, s, progress))
  {
    hide ActionStep, HandleFrame, PushStep, LifeStep, TableOk, TasksOk;
    match progress
    case Arrive(chunk) => return;
    case TakeFrame => TracksFrame(digest, s, Decode(s.rx.pending).value); return;
    case Act(acked) =>
      MapFacts(s);
      TracksAction(s.(rx := s.rx.(todo := s.rx.todo[1..])), s.rx.todo[0], acked);
      return;
    case Continue =>
      if IsPush(s.rx.at) {
        TracksPush(s);
      } else {
        TracksLife(s);
      }
      return;
    case Fail => return;
  }

  lemma TracksStep(digest: Text -> Text, s: Session, ev: Event)
    requires Tracks(s) && Sound(s) && Possible(s, ev)
    ensures Tracks(Step(digest, s, ev))
  {
    hide Sound, Grows, Tracks, ReceiveStep, Ascii, Apply;
    StepKeeps(digest, s, ev);
    if ev.Receive? {
      TracksReceive(digest, s, ev.progress);
    } else {
      TracksGrows(s, Step(digest, s, ev));
    }
  }

  // ---- Stream isolation ----

  /** The frame concerns one stream only. */
  predicate StreamFrame(f: Frame)
  {
    f.cmd.Psh? || f.cmd.Fin? || f.cmd.SynAck?
  }

  /** Nothing but stream `sid` changed, nothing was sent, and the receive loop goes on. */
  ghost predicate Isolated(s: Session, s': Session, sid: U32)
  {
    && |s'.table.objs| == |s.table.objs|
    && (forall o :: 0 <= o < |s.table.objs| && s.table.objs[o].sid != sid ==> s'.table.objs[o] == s.table.objs[o])
    && (forall other :: other != sid ==>
          (other in s'.table.streams <==> other in s.table.streams) &&
          (other in s.table.streams ==> s'.table.streams[other] == s.table.streams[other]))
    && s'.channel == s.channel
    && !s'.rx.at.Stopped?
  }

  lemma IsolatedAction(s: Session, action: Action, acked: bool)
    requires s.rx.at.Next? && s.rx.handled != [] && StreamFrame(Last(s.rx.handled))
    requires Asks(s.isClient, Last(s.rx.handled), action)
    ensures Isolated(s, ActionStep(s, action, acked), Last(s.rx.handled).sid)
  {
    hide Ascii;
  }

  lemma IsolatedReplace(s: Session, o: nat, x: Stream, at: At)
    requires o < |s.table.objs| && !at.Stopped?
    ensures Isolated(s, s.Goto(at), s.table.objs[o].sid)
    ensures Isolated(s, s.(table := s.table.(objs := s.table.objs[o := x])).Goto(at), s.table.objs[o].sid)
  {
  }

  lemma IsolatedPush(s: Session)
    requires AtOk(s.table.objs, s.rx.at) && IsPush(s.rx.at)
    ensures Isolated(s, PushStep(s, s.rx.at), s.table.objs[s.rx.at.o].sid)
  {
    hide Apply, Isolated;
    var x := s.table.objs[s.rx.at.o];
    if s.rx.at.PushPipe? && Accepts(x.pipe) {
      IsolatedReplace(s, s.rx.at.o, x.(pipe := Apply(x.pipe, Write(s.rx.at.data))), Next);
    } else {
      IsolatedReplace(s, s.rx.at.o, x, PushStep(s, s.rx.at).rx.at);
    }
  }

  lemma IsolatedContinue(digest: Text -> Text, s: Session)
    requires AtOk(s.table.objs, s.rx.at) && ProgressPossible(s, Continue)
    requires s.rx.handled != [] && StreamFrame(Last(s.rx.handled))
    requires WorksOn(s.isClient, s.table.objs, Last(s.rx.handled), s.rx.at)
    ensures Isolated(s, ReceiveStep(digest, s, Continue), Last(s.rx.handled).sid)
  {
    hide Apply, Isolated, PushStep;
    match s.rx.at
    case PeerRemoved(o, error) =>
      IsolatedReplace(s, o, s.table.objs[o].(closedBy := Some(Peer)), PeerFinish(o, error));
      IsolatedReplace(s, o, s.table.objs[o], Next);
    case PeerFinish(o, error) =>
      var x := s.table.objs[o];
      IsolatedReplace(s, o, x.(pipe := Apply(x.pipe, Finish(error))), Next);
    case _ => IsolatedPush(s);
  }

  /** In every sound state, each step the receive loop takes for a PSH, FIN or SYNACK frame
      leaves all other streams as they are and does not end the session. */
  lemma StreamIsolation(digest: Text -> Text, s: Session, progress: Progress)
    requires Tracks(s) && Sound(s) && ProgressPossible(s, progress)
    requires progress.TakeFrame? ==> StreamFrame(Decode(s.rx.pending).value)
    requires progress.Act? || progress.Continue? ==> StreamFrame(Last(s.rx.handled))
    requires !progress.Arrive? && !progress.Fail?
    ensures var s' := ReceiveStep(digest, s, progress);
            s'.rx.handled != [] && Isolated(s, s', Last(s'.rx.handled).sid)
  {
    hide ActionStep, PushStep, LifeStep, TableOk, TasksOk, OnFrame;
    match progress
    case TakeFrame => return;
    case Act(acked) =>
      IsolatedAction(s.(rx := s.rx.(todo := s.rx.todo[1..])), s.rx.todo[0], acked);
      ReceiveHandled(digest, s, progress);
      return;
    case Continue =>
      IsolatedContinue(digest, s);
      ReceiveHandled(digest, s, progress);
      return;
  }

  /** An action, and a section of one, moves the receive loop and nothing else of it. */
  lemma ActionRx(s: Session, action: Action, acked: bool)
    ensures var s' := ActionStep(s, action, acked);
            s'.rx == s.rx.(at := s'.rx.at) && s'.table.objs == s.table.objs
  {
    hide Ascii;
  }

  lemma ContinueRx(s: Session, at: At)
    requires AtInRange(at, |s.table.objs|) && !at.Next? && !at.Stopped?
    ensures var s' := if IsPush(at) then PushStep(s, at) else LifeStep(s, at);
            s'.rx == s.rx.(at := s'.rx.at) && !s'.rx.at.Creating?
  {
    hide Apply, Accepts;
  }

  /** Only taking a frame adds to the frames handled, and only arrivals and frames touch the bytes. */
  lemma ReceiveHandled(digest: Text -> Text, s: Session, progress: Progress)
    requires ProgressPossible(s, progress) && !progress.TakeFrame?
    ensures var rx := ReceiveStep(digest, s, progress).rx;
            && rx.handled == s.rx.handled && rx.engine == s.rx.engine
            && (!progress.Arrive? ==> rx.pending == s.rx.pending && rx.received == s.rx.received)
  {
    hide HandleFrame, ActionStep, PushStep, LifeStep, Decode;
    match progress
    case Act(acked) => ActionRx(s.(rx := s.rx.(todo := s.rx.todo[1..])), s.rx.todo[0], acked);
    case Continue => ContinueRx(s, s.rx.at);
    case _ =>
  }
}
