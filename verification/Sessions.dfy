/** A session and its streams: src/proxy/session/inner.rs, src/proxy/session/stream.rs and the
    action loop of src/runtime/mod.rs.

    Each lock section or atomic operation of the source is one step. Work that an operation still
    has to do between two of its steps is a `Task`, so any number of opens, closes, writes and
    terminations interleave with each other and with the receive loop. */
module Sessions {
  import opened Bytes
  import opened Options
  import opened Texts
  import opened Frames
  import opened Engine
  import opened Pipes

  /** Which close won the compare-and-set on a stream's `closed` flag. */
  datatype Cause = Local | Peer | SessionEnd

  /** A stream object. `born` counts the frames handled before those it can still see; `sent` is
      what `write` has queued on it; `handed` says the caller of `open_stream` has it. */
  datatype Stream = Stream(sid: U32, closedBy: Option<Cause>, pipe: Pipe, born: nat, sent: seq<Byte>, handed: bool) {
    predicate Closed() { closedBy.Some? }
  }

  /** What an operation is about to do next. Streams are named by their position in `objs`. */
  datatype Task =
    | OpenLock
    | SendSyn(o: nat)
    | UndoOpen(o: nat)
    | NotifyIdle
    | CloseBySession(o: nat, error: Option<Error>)
    | FinishPipe(o: nat, error: Option<Error>)
    | RemoveSelf(o: nat)
    | ClosePipe(o: nat)
    | SendFin(o: nat)
    | Drain
    | SendPsh(o: nat, data: seq<Byte>)

  /** Where the receive loop stands. */
  datatype At =
    | Next
    | Creating(sid: U32)
    | PushFound(o: nat, data: seq<Byte>)
    | PushChecked(o: nat, data: seq<Byte>)
    | PushPipe(o: nat, data: seq<Byte>)
    | PushFailed(o: nat)
    | PeerRemoved(o: nat, error: Option<Error>)
    | PeerFinish(o: nat, error: Option<Error>)
    | Stopped

  /** The shared tables: the stream map behind its mutex, the stream objects, the identifier
      counter, the closed flag and the idle flag. `opens` counts the identifiers drawn and
      `drained` records that a termination has emptied the map. */
  datatype Table = Table(
    streams: map<U32, nat>,
    objs: seq<Stream>,
    idle: bool,
    nextId: U32,
    opens: nat,
    closed: bool,
    drained: bool)
  {
    /** Stream `o` is the one the map holds for its identifier. */
    predicate Attached(o: nat)
      requires o < |objs|
    {
      objs[o].sid in streams && streams[objs[o].sid] == o
    }

    /** The lock section that creates a stream. */
    function Insert(sid: U32, born: nat, handed: bool): (t: Table)
      ensures t.streams != map[]
    {
      assert sid in streams[sid := |objs|];
      this.(streams := streams[sid := |objs|],
            objs := objs + [Stream(sid, None, NewPipe(), born, [], handed)],
            idle := false)
    }

    /** The compare-and-set on a stream's `closed` flag. */
    function MarkClosed(o: nat, cause: Cause): Table
      requires o < |objs|
    {
      if objs[o].Closed() then this else this.(objs := objs[o := objs[o].(closedBy := Some(cause))])
    }

    function OnPipe(o: nat, step: PipeStep): Table
      requires o < |objs| && Enabled(objs[o].pipe, step)
    {
      this.(objs := objs[o := objs[o].(pipe := Apply(objs[o].pipe, step))])
    }
  }

  /** The frame channel to the writer task: what was queued, which streams queued a FIN, and
      whether the writer is gone. */
  datatype Channel = Channel(frames: seq<Frame>, finLog: seq<nat>, gone: bool) {
    function Send(f: Frame): Channel
    {
      if gone then this else this.(frames := frames + [f])
    }
  }

  /** The receive loop: protocol state, position, actions still to apply, unparsed bytes, and
      everything received and handled so far. */
  datatype Receiver = Receiver(
    engine: Engine.State,
    at: At,
    todo: seq<Action>,
    pending: seq<Byte>,
    received: seq<Byte>,
    handled: seq<Frame>)
  {
    /** How many frames are behind a stream created now: an action not yet applied can still
        reach it. */
    function Born(): nat
    {
      if todo != [] && handled != [] then |handled| - 1 else |handled|
    }
  }

  datatype Session = Session(
    isClient: bool,
    cap: nat,
    table: Table,
    channel: Channel,
    rx: Receiver,
    tasks: multiset<Task>)
  {
    predicate Terminated() { table.closed || channel.gone }

    function Spawn(ts: multiset<Task>): Session { this.(tasks := tasks + ts) }

    /** `send` on the frame channel: fails once the writer is gone. */
    function Send(f: Frame): Session { this.(channel := channel.Send(f)) }

    function Goto(at: At): Session { this.(rx := rx.(at := at)) }

    /** The lock section that removes a stream id; the last one out owes a notification. */
    function Remove(sid: U32): Session
    {
      var streams := table.streams - {sid};
      this.(table := table.(streams := streams),
            tasks := tasks + if streams == map[] then multiset{NotifyIdle} else multiset{})
    }

    function MarkClosed(o: nat, cause: Cause): Session
      requires o < |table.objs|
    {
      this.(table := table.MarkClosed(o, cause))
    }

    function OnPipe(o: nat, step: PipeStep): Session
      requires o < |table.objs| && Enabled(table.objs[o].pipe, step)
    {
      this.(table := table.OnPipe(o, step))
    }
  }

  /** A fresh session; a client has queued its settings before anyone can use it. */
  function NewSession(isClient: bool, cap: nat, engine: Engine.State, order: seq<(Text, Text)>): Session
  {
    Session(isClient, cap,
            Table(map[], [], true, 0, 0, false, false),
            Channel(Engine.Sent(OnSessionStart(isClient, order)), [], false),
            Receiver(engine, Next, [], [], [], []),
            multiset{})
  }

  /** Calls into the session and its streams, up to the end of their first section. */
  datatype Call =
    | OpenStream
    | CloseStream(o: nat)
    | WriteStream(o: nat, data: seq<Byte>)
    | ReadStream(o: nat, step: PipeStep)
    | Handshake(o: nat, error: Text)
    | Terminate
    | WriterExits

  /** Steps of the receive loop. */
  datatype Progress =
    | Arrive(chunk: seq<Byte>)
    | TakeFrame
    | Act(acked: bool)
    | Continue
    | Fail

  datatype Event = Api(call: Call) | RunTask(task: Task) | Receive(progress: Progress)

  /** The streams a task refers to exist. */
  predicate TaskInRange(t: Task, n: nat)
  {
    match t
    case SendSyn(o) => o < n
    case UndoOpen(o) => o < n
    case CloseBySession(o, _) => o < n
    case FinishPipe(o, _) => o < n
    case RemoveSelf(o) => o < n
    case ClosePipe(o) => o < n
    case SendFin(o) => o < n
    case SendPsh(o, _) => o < n
    case _ => true
  }

  predicate AtInRange(at: At, n: nat)
  {
    match at
    case PushFound(o, _) => o < n
    case PushChecked(o, _) => o < n
    case PushPipe(o, _) => o < n
    case PushFailed(o) => o < n
    case PeerRemoved(o, _) => o < n
    case PeerFinish(o, _) => o < n
    case _ => true
  }

  /** When a call can happen. Only a client opens streams, and a stream is used by those who
      have it. */
  predicate CallPossible(s: Session, call: Call)
  {
    var objs := s.table.objs;
    match call
    case OpenStream => s.isClient
    case CloseStream(o) => o < |objs| && objs[o].handed
    case WriteStream(o, _) => o < |objs| && objs[o].handed
    case ReadStream(o, step) =>
      o < |objs| && objs[o].handed && (step.Check? || step.Take? || step.Receive? || step.Restore?) &&
      Enabled(objs[o].pipe, step)
    case Handshake(o, _) => !s.isClient && o < |objs|
    case Terminate => true
    case WriterExits => true
  }

  /** The receive loop reads more bytes when no complete frame is pending. */
  predicate ProgressPossible(s: Session, progress: Progress)
  {
    var rx := s.rx;
    match progress
    case Arrive(chunk) => rx.at.Next? && rx.todo == [] && Decode(rx.pending).None? && chunk != []
    case TakeFrame => rx.at.Next? && rx.todo == [] && Decode(rx.pending).Some?
    case Act(_) => rx.at.Next? && rx.todo != []
    case Continue => !rx.at.Next? && !rx.at.Stopped? && AtInRange(rx.at, |s.table.objs|)
    case Fail => rx.at.Next? && rx.todo == []
  }

  predicate Possible(s: Session, ev: Event)
  {
    match ev
    case Api(call) => CallPossible(s, call)
    case RunTask(t) => t in s.tasks && TaskInRange(t, |s.table.objs|)
    case Receive(progress) => ProgressPossible(s, progress)
  }

  function Step(digest: Text -> Text, s: Session, ev: Event): Session
    requires Possible(s, ev)
  {
    match ev
    case Api(call) => CallStep(s, call)
    case RunTask(t) =>
      var s' := s.(tasks := s.tasks - multiset{t});
      if IsOpenTask(t) then OpenTaskStep(s', t) else CloseTaskStep(s', t)
    case Receive(progress) => ReceiveStep(digest, s, progress)
  }

  function CallStep(s: Session, call: Call): Session
    requires CallPossible(s, call)
  {
    var objs := s.table.objs;
    match call
    case OpenStream => if s.Terminated() then s else s.Spawn(multiset{OpenLock})
    case CloseStream(o) =>
      if objs[o].Closed() then s else s.MarkClosed(o, Local).Spawn(multiset{RemoveSelf(o)})
    case WriteStream(o, data) => if objs[o].Closed() then s else s.Spawn(multiset{SendPsh(o, data)})
    case ReadStream(o, step) => s.OnPipe(o, step)
    case Handshake(o, error) =>
      if s.rx.engine.peerVersion >= MIN_PROTOCOL_VERSION then s.Send(Frame(SynAck, objs[o].sid, error)) else s
    case Terminate =>
      if s.table.closed then s else s.(table := s.table.(closed := true)).Spawn(multiset{Drain})
    case WriterExits => s.(channel := s.channel.(gone := true))
  }

  predicate IsOpenTask(t: Task)
  {
    t.OpenLock? || t.SendSyn? || t.UndoOpen? || t.SendPsh?
  }

  /** The next section of an open or a write, already taken off the task list. */
  function OpenTaskStep(s: Session, t: Task): Session
    requires IsOpenTask(t) && TaskInRange(t, |s.table.objs|)
  {
    var objs := s.table.objs;
    match t
    case OpenLock =>
      if s.table.closed || |s.table.streams| >= s.cap then s
      else
        var sid := (s.table.nextId + 1) % 0x1_0000_0000;
        var table := s.table.(nextId := sid, opens := s.table.opens + 1);
        if sid == 0 then s.(table := table)
        else s.(table := table.Insert(sid, s.rx.Born(), false)).Spawn(multiset{SendSyn(|objs|)})
    case SendSyn(o) =>
      if s.channel.gone then s.Spawn(multiset{UndoOpen(o)})
      else s.Send(Frame(Syn, objs[o].sid, [])).(table := s.table.(objs := objs[o := objs[o].(handed := true)]))
    case UndoOpen(o) => s.Remove(objs[o].sid).Spawn(multiset{CloseBySession(o, Some(Ascii("Session closed")))})
    case SendPsh(o, data) =>
      if s.channel.gone then s
      else
        s.Send(Frame(Psh, objs[o].sid, data))
         .(table := s.table.(objs := objs[o := objs[o].(sent := objs[o].sent + data)]))
  }

  /** The next section of a close or a termination. */
  function CloseTaskStep(s: Session, t: Task): Session
    requires !IsOpenTask(t) && TaskInRange(t, |s.table.objs|)
  {
    var objs := s.table.objs;
    match t
    case NotifyIdle => s.(table := s.table.(idle := true))
    case CloseBySession(o, error) =>
      if objs[o].Closed() then s else s.MarkClosed(o, SessionEnd).Spawn(multiset{FinishPipe(o, error)})
    case FinishPipe(o, error) => s.OnPipe(o, Finish(error))
    case RemoveSelf(o) => s.Remove(objs[o].sid).Spawn(multiset{ClosePipe(o), SendFin(o)})
    case ClosePipe(o) => s.OnPipe(o, CloseLocally(None))
    case SendFin(o) =>
      if s.channel.gone then s
      else s.(channel := s.channel.Send(Frame(Fin, objs[o].sid, [])).(finLog := s.channel.finLog + [o]))
    case Drain =>
      s.(table := s.table.(streams := map[], idle := true, drained := true)).Spawn(Doomed(s.table.streams))
  }

  /** The closes a termination owes to the streams it found. */
  function Doomed(streams: map<U32, nat>): multiset<Task>
  {
    multiset(set sid | sid in streams :: CloseBySession(streams[sid], None))
  }

  function ReceiveStep(digest: Text -> Text, s: Session, progress: Progress): Session
    requires ProgressPossible(s, progress)
  {
    match progress
    case Arrive(chunk) => s.(rx := s.rx.(pending := s.rx.pending + chunk, received := s.rx.received + chunk))
    case TakeFrame => s.(rx := HandleFrame(digest, s.rx, s.isClient, Decode(s.rx.pending).value))
    case Act(acked) => ActionStep(s.(rx := s.rx.(todo := s.rx.todo[1..])), s.rx.todo[0], acked)
    case Continue => if IsPush(s.rx.at) then PushStep(s, s.rx.at) else LifeStep(s, s.rx.at)
    case Fail => s.Goto(Stopped)
  }

  /** `handle_frame` up to the list of actions. */
  function HandleFrame(digest: Text -> Text, rx: Receiver, isClient: bool, f: Frame): Receiver
    requires HEADER_SIZE + |f.data| <= |rx.pending|
  {
    var rx' := rx.(pending := rx.pending[HEADER_SIZE + |f.data|..], handled := rx.handled + [f]);
    if f.cmd.Alert? then rx'.(at := Stopped)
    else
      var (engine, actions) := OnFrame(digest, rx.engine, isClient, f);
      rx'.(engine := engine, todo := actions)
  }

  /** The first section of one action; `acked` is the writer's answer to a synchronous send. */
  function ActionStep(s: Session, action: Action, acked: bool): Session
  {
    match action
    case SendFrame(f) => if s.channel.gone then s.Goto(Stopped) else s.Send(f)
    case SendFrameSync(f) => if s.channel.gone || !acked then s.Send(f).Goto(Stopped) else s.Send(f)
    case PushStreamData(sid, data) =>
      if sid in s.table.streams then s.Goto(PushFound(s.table.streams[sid], data)) else s
    case EnsureIncomingStream(sid) =>
      if sid == 0 then s.Goto(Stopped) else if s.Terminated() then s else s.Goto(Creating(sid))
    case CloseLocalStream(sid) => PeerCloses(s, sid, None)
    case CloseRemoteStream(sid, message) => PeerCloses(s, sid, Some(Ascii("remote: ") + message))
    case ReleaseWriteBuffering => s
    case AlertAndFail(message) => s.Send(Frame(Alert, 0, message)).Goto(Stopped)
  }

  function PeerCloses(s: Session, sid: U32, error: Option<Error>): Session
  {
    if sid in s.table.streams then s.Remove(sid).Goto(PeerRemoved(s.table.streams[sid], error)) else s.Remove(sid)
  }

  predicate IsPush(at: At)
  {
    at.PushFound? || at.PushChecked? || at.PushPipe? || at.PushFailed?
  }

  /** The next section of `push_stream_data`. */
  function PushStep(s: Session, at: At): Session
    requires IsPush(at) && AtInRange(at, |s.table.objs|)
  {
    var x := s.table.objs[at.o];
    match at
    case PushFound(o, data) => s.Goto(if x.Closed() then Next else PushChecked(o, data))
    case PushChecked(o, data) => s.Goto(if x.Closed() then PushFailed(o) else PushPipe(o, data))
    case PushPipe(o, data) =>
      if Accepts(x.pipe) then s.OnPipe(o, Write(data)).Goto(Next) else s.Goto(PushFailed(o))
    case PushFailed(o) => s.Goto(if x.Closed() then Next else Stopped)
  }

  /** The next section of `create_incoming_stream` or of a close by the peer. */
  function LifeStep(s: Session, at: At): Session
    requires (at.Creating? || at.PeerRemoved? || at.PeerFinish?) && AtInRange(at, |s.table.objs|)
  {
    match at
    case Creating(sid) =>
      if sid in s.table.streams then s.Goto(Next)
      else s.(table := s.table.Insert(sid, s.rx.Born(), true)).Goto(Next)
    case PeerRemoved(o, error) =>
      if s.table.objs[o].Closed() then s.Goto(Next) else s.MarkClosed(o, Peer).Goto(PeerFinish(o, error))
    case PeerFinish(o, error) => s.OnPipe(o, Finish(error)).Goto(Next)
  }

  // ---- Runs ----

  /** The session after a list of events; `None` when one of them was not possible at its turn. */
  function Run(digest: Text -> Text, init: Session, events: seq<Event>): Option<Session>
  {
    if events == [] then Some(init)
    else
      match Run(digest, init, events[..|events| - 1])
      case None => None
      case Some(s) => if Possible(s, events[|events| - 1]) then Some(Step(digest, s, events[|events| - 1])) else None
  }

  lemma RunOne(digest: Text -> Text, s: Session, ev: Event)
    requires Possible(s, ev)
    ensures Run(digest, s, [ev]) == Some(Step(digest, s, ev))
  {
    hide Step, Possible;
    assert [ev][..0] == [];
  }

  lemma RunTwo(digest: Text -> Text, s: Session, a: Event, b: Event)
    requires Possible(s, a) && Possible(Step(digest, s, a), b)
    ensures Run(digest, s, [a, b]) == Some(Step(digest, Step(digest, s, a), b))
  {
    hide Step, Possible;
    RunOne(digest, s, a);
    assert [a, b][..1] == [a];
  }

  lemma {:induction false} RunConcat(digest: Text -> Text, init: Session, a: seq<Event>, b: seq<Event>)
    requires Run(digest, init, a).Some?
    ensures Run(digest, init, a + b) == Run(digest, Run(digest, init, a).value, b)
  {
    hide Step, Possible;
    if b == [] {
      assert a + b == a;
    } else {
      assert (a + b)[..|a + b| - 1] == a + b[..|b| - 1];
      RunConcat(digest, init, a, b[..|b| - 1]);
    }
  }
}
