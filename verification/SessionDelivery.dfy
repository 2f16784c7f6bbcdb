/** What reaches a stream's pipe: exactly the data frames addressed to it, in order. */
module SessionDelivery {
  import opened Bytes
  import opened Options
  import opened Texts
  import opened Frames
  import opened Engine
  import opened Pipes
  import opened Sessions
  import opened SessionSafety
  import opened SessionReceive

  // ---- The reference: data of one stream in a list of frames ----

  /** Some frame ends the stream from the peer's side. */
  predicate EndedFor(sid: U32, fs: seq<Frame>)
  {
    fs != [] && (EndedFor(sid, fs[..|fs| - 1]) || Ends(Last(fs), sid))
  }

  /** The payload of the stream's PSH frames up to its end. */
  function DataFor(sid: U32, fs: seq<Frame>): seq<Byte>
  {
    if fs == [] then []
    else
      var front := fs[..|fs| - 1];
      DataFor(sid, front) + if Last(fs).cmd.Psh? && Last(fs).sid == sid && !EndedFor(sid, front) then Last(fs).data else []
  }

  /** What the first frame that ends the stream says about it. */
  function FirstEnd(sid: U32, fs: seq<Frame>): Option<Error>
  {
    if fs == [] then None
    else if EndedFor(sid, fs[..|fs| - 1]) then FirstEnd(sid, fs[..|fs| - 1])
    else if Ends(Last(fs), sid) then EndErrorOf(Last(fs)) else None
  }

  lemma DataSnoc(sid: U32, fs: seq<Frame>, f: Frame)
    ensures EndedFor(sid, fs + [f]) == (EndedFor(sid, fs) || Ends(f, sid))
    ensures DataFor(sid, fs + [f])
         == DataFor(sid, fs) + if f.cmd.Psh? && f.sid == sid && !EndedFor(sid, fs) then f.data else []
    ensures FirstEnd(sid, fs + [f])
         == if EndedFor(sid, fs) then FirstEnd(sid, fs) else if Ends(f, sid) then EndErrorOf(f) else None
  {
    assert (fs + [f])[..|fs + [f]| - 1] == fs;
  }

  /** The frames a stream can have seen. */
  function Seen(x: Stream, handled: seq<Frame>): seq<Frame>
    requires x.born <= |handled|
  {
    handled[x.born..]
  }

  // ---- The invariant ----

  /** Data of the last frame that is on its way to stream `o`. */
  function InFlight(rx: Receiver, o: nat, sid: U32): seq<Byte>
  {
    if rx.at.Next? && |rx.todo| == 1 && rx.todo[0].PushStreamData? && rx.todo[0].sid == sid then rx.todo[0].data
    else if (rx.at.PushFound? || rx.at.PushChecked? || rx.at.PushPipe?) && rx.at.o == o then rx.at.data
    else []
  }

  /** The close the peer asked for is the next action. */
  predicate CloseNext(rx: Receiver, sid: U32)
  {
    rx.at.Next? && |rx.todo| == 1 && (rx.todo[0].CloseLocalStream? || rx.todo[0].CloseRemoteStream?) &&
    rx.todo[0].sid == sid
  }

  /** What stream `o` has accepted, against what was addressed to it, and how it was ended by its peer,
      against the first frame that did so. */
  ghost predicate Delivered(x: Stream, o: nat, attached: bool, rx: Receiver)
  {
    && x.born <= |rx.handled|
    && (rx.todo != [] ==> x.born < |rx.handled|)
    && (var due := DataFor(x.sid, Seen(x, rx.handled));
        var ended := EndedFor(x.sid, Seen(x, rx.handled));
        var first := FirstEnd(x.sid, Seen(x, rx.handled));
        && x.pipe.accepted <= due
        && (attached && !x.Closed() ==> x.pipe.accepted + InFlight(rx, o, x.sid) == due)
        && (attached && ended ==> CloseNext(rx, x.sid) && rx.handled != [] && first == EndErrorOf(Last(rx.handled)))
        && (rx.at.PushFound? && rx.at.o == o && !x.Closed() ==> x.pipe.accepted + rx.at.data == due)
        && ((rx.at.PushChecked? || rx.at.PushPipe?) && rx.at.o == o ==> x.pipe.accepted + rx.at.data == due)
        && (rx.at.PeerRemoved? && rx.at.o == o && !x.Closed() ==> x.pipe.accepted == due && ended && rx.at.error == first)
        && (rx.at.PeerFinish? && rx.at.o == o ==> rx.at.error == first && !x.pipe.endQueued && !x.pipe.closed)
        && (x.closedBy == Some(Peer) ==>
              && x.pipe.accepted == due && ended
              && ((x.pipe.endQueued && x.pipe.endError == first) || (rx.at.PeerFinish? && rx.at.o == o))))
  }

  ghost predicate AllDelivered(s: Session)
  {
    forall o :: 0 <= o < |s.table.objs| ==> Delivered(s.table.objs[o], o, s.table.Attached(o), s.rx)
  }

  // ---- Steps outside the receive loop ----

  /** The stream may have been closed, detached, read or written to, but has accepted the same. */
  ghost predicate Aside(a: Stream, b: Stream)
  {
    && GrowsOne(a, b)
    && b.pipe.accepted == a.pipe.accepted
    && (b.closedBy == Some(Peer) ==> a.closedBy == Some(Peer))
    && (a.closedBy == Some(Peer) && !a.pipe.endQueued && !a.pipe.closed ==> !b.pipe.endQueued && !b.pipe.closed)
  }

  lemma AsideDelivered(a: Stream, b: Stream, o: nat, before: bool, after: bool, rx: Receiver)
    requires Delivered(a, o, before, rx) && Aside(a, b) && (after ==> before)
    requires rx.at.PeerFinish? && rx.at.o == o ==> a.closedBy == Some(Peer)
    ensures Delivered(b, o, after, rx)
  {
    hide DataFor, EndedFor, FirstEnd, InFlight, CloseNext;
  }

  lemma AsideAll(s: Session, s': Session)
    requires AllDelivered(s) && AtOk(s.table.objs, s.rx.at) && s'.rx == s.rx && |s'.table.objs| == |s.table.objs|
    requires forall o :: 0 <= o < |s.table.objs| ==> Aside(s.table.objs[o], s'.table.objs[o])
    requires forall sid :: sid in s'.table.streams ==> sid in s.table.streams && s'.table.streams[sid] == s.table.streams[sid]
    ensures AllDelivered(s')
  {
    hide Delivered;
    forall o | 0 <= o < |s'.table.objs|
      ensures Delivered(s'.table.objs[o], o, s'.table.Attached(o), s'.rx)
    {
      assert Delivered(s.table.objs[o], o, s.table.Attached(o), s.rx);
      AsideDelivered(s.table.objs[o], s'.table.objs[o], o, s.table.Attached(o), s'.table.Attached(o), s.rx);
    }
  }

  lemma PipeAside(x: Stream, step: PipeStep)
    requires Inv(x.pipe) && Enabled(x.pipe, step) && !step.Write?
    requires step.Finish? || step.CloseLocally? ==> x.closedBy != Some(Peer)
    ensures Aside(x, x.(pipe := Apply(x.pipe, step)))
  {
    if step.Restore? && x.pipe.reader.item.Some? {
      assert x.pipe.Pending()[0] == x.pipe.reader.item.value;
    }
  }

  lemma AsideSame(s: Session, s': Session)
    requires AllDelivered(s) && AtOk(s.table.objs, s.rx.at) && s'.rx == s.rx && s'.table.objs == s.table.objs
    requires forall sid :: sid in s'.table.streams ==> sid in s.table.streams && s'.table.streams[sid] == s.table.streams[sid]
    ensures AllDelivered(s')
  {
    hide AllDelivered;
    AsideAll(s, s');
  }

  lemma AsideOne(s: Session, s': Session, o: nat, x: Stream)
    requires AllDelivered(s) && AtOk(s.table.objs, s.rx.at) && s'.rx == s.rx && o < |s.table.objs| && s'.table.objs == s.table.objs[o := x]
    requires Aside(s.table.objs[o], x) && s'.table.streams == s.table.streams
    ensures AllDelivered(s')
  {
    hide AllDelivered;
    AsideAll(s, s');
  }

  lemma CallDelivers(s: Session, call: Call)
    requires AllDelivered(s) && Sound(s) && CallPossible(s, call)
    ensures AllDelivered(CallStep(s, call))
  {
    hide AllDelivered, Apply, Enabled, TableOk, TasksOk, AtOk, Inv;
    match call
    case CloseStream(o) =>
      if !s.table.objs[o].Closed() {
        AsideOne(s, CallStep(s, call), o, s.table.objs[o].(closedBy := Some(Local)));
      }
      return;
    case ReadStream(o, step) =>
      var x := s.table.objs[o];
      PipeSound(s, o);
      PipeAside(x, step);
      AsideOne(s, CallStep(s, call), o, x.(pipe := Apply(x.pipe, step)));
      return;
    case _ => AsideSame(s, CallStep(s, call)); return;
  }

  lemma NewStreamDelivers(isClient: bool, rx: Receiver, x: Stream, o: nat)
    requires x.born == rx.Born() && x.pipe == NewPipe() && x.closedBy.None?
    requires rx.handled != [] ==> AskedBy(isClient, Last(rx.handled), rx.todo)
    requires rx.todo != [] ==> rx.handled != [] && (rx.at.Next? || rx.at.Stopped?)
    requires rx.at.Stopped? && rx.todo != [] ==> Last(rx.handled).cmd.Settings?
    requires !rx.at.Next? && !rx.at.Stopped? && !rx.at.Creating? ==> rx.at.o != o
    ensures Delivered(x, o, true, rx)
  {
    if rx.todo == [] {
      assert Seen(x, rx.handled) == [];
    } else {
      var f := Last(rx.handled);
      assert Seen(x, rx.handled) == [] + [f];
      DataSnoc(x.sid, [], f);
      assert Asks(isClient, f, rx.todo[0]);
    }
  }

  /** The new stream takes its identifier; others keep theirs or lose it. */
  lemma InsertDelivers(s: Session, table: Table, sid: U32, handed: bool)
    requires AllDelivered(s) && Tracks(s) && AtOk(s.table.objs, s.rx.at) && (s.rx.at.Creating? ==> s.rx.todo == [])
    requires table.objs == s.table.objs && table.streams == s.table.streams
    ensures AllDelivered(s.(table := table.Insert(sid, s.rx.Born(), handed)))
  {
    hide Delivered, AskedBy;
    var s' := s.(table := table.Insert(sid, s.rx.Born(), handed));
    forall o | 0 <= o < |s'.table.objs|
      ensures Delivered(s'.table.objs[o], o, s'.table.Attached(o), s'.rx)
    {
      if o < |s.table.objs| {
        assert Delivered(s.table.objs[o], o, s.table.Attached(o), s.rx);
        AsideDelivered(s.table.objs[o], s'.table.objs[o], o, s.table.Attached(o), s'.table.Attached(o), s.rx);
      } else {
        NewStreamDelivers(s.isClient, s.rx, s'.table.objs[o], o);
      }
    }
  }

  lemma OpenLockDelivers(s: Session)
    requires AllDelivered(s) && Tracks(s) && AtOk(s.table.objs, s.rx.at)
    ensures AllDelivered(OpenTaskStep(s, OpenLock))
  {
    hide AllDelivered, AskedBy, WorksOn;
    if s.table.closed || |s.table.streams| >= s.cap {
      return;
    }
    var sid := (s.table.nextId + 1) % 0x1_0000_0000;
    var table := s.table.(nextId := sid, opens := s.table.opens + 1);
    if sid == 0 {
      AsideSame(s, s.(table := table));
    } else {
      InsertDelivers(s, table, sid, false);
      AsideSame(s.(table := table.Insert(sid, s.rx.Born(), false)), OpenTaskStep(s, OpenLock));
    }
  }

  lemma OpenTaskDelivers(s: Session, t: Task)
    requires AllDelivered(s) && Tracks(s) && AtOk(s.table.objs, s.rx.at) && IsOpenTask(t) && TaskInRange(t, |s.table.objs|)
    ensures AllDelivered(OpenTaskStep(s, t))
  {
    hide AllDelivered, Tracks, Ascii, AtOk;
    match t
    case OpenLock => OpenLockDelivers(s); return;
    case SendSyn(o) =>
      AsideSame(s, s.Spawn(multiset{UndoOpen(o)}));
      AsideOne(s, s.Send(Frame(Syn, s.table.objs[o].sid, [])).(table := s.table.(objs := s.table.objs[o := s.table.objs[o].(handed := true)])),
               o, s.table.objs[o].(handed := true));
      return;
    case UndoOpen(o) => AsideSame(s, OpenTaskStep(s, t)); return;
    case SendPsh(o, data) =>
      if !s.channel.gone {
        AsideOne(s, OpenTaskStep(s, t), o, s.table.objs[o].(sent := s.table.objs[o].sent + data));
      }
      return;
  }

  lemma CloseTaskDelivers(s: Session, t: Task)
    requires AllDelivered(s) && Sound(s) && !IsOpenTask(t) && TaskOk(s.table.objs, t)
    ensures AllDelivered(CloseTaskStep(s, t))
  {
    hide AllDelivered, Apply, TableOk, TasksOk, AtOk, Inv;
    var s' := CloseTaskStep(s, t);
    match t
    case FinishPipe(o, error) =>
      var x := s.table.objs[o];
      PipeSound(s, o);
      PipeAside(x, Finish(error));
      AsideOne(s, s', o, x.(pipe := Apply(x.pipe, Finish(error))));
      return;
    case ClosePipe(o) =>
      var x := s.table.objs[o];
      PipeSound(s, o);
      PipeAside(x, CloseLocally(None));
      AsideOne(s, s', o, x.(pipe := Apply(x.pipe, CloseLocally(None))));
      return;
    case CloseBySession(o, error) =>
      if !s.table.objs[o].Closed() {
        AsideOne(s, s', o, s.table.objs[o].(closedBy := Some(SessionEnd)));
      }
      return;
    case _ => AsideSame(s, s'); return;
  }

  // ---- The receive loop ----

  /** Taking a frame off the wire: the reference grows, and what is missing is now in flight. */
  lemma FrameDelivered(digest: Text -> Text, isClient: bool, x: Stream, o: nat, attached: bool, rx: Receiver, f: Frame)
    requires Delivered(x, o, attached, rx) && rx.at.Next? && rx.todo == []
    requires HEADER_SIZE + |f.data| <= |rx.pending|
    ensures Delivered(x, o, attached, HandleFrame(digest, rx, isClient, f))
  {
    hide EndedFor, DataFor, FirstEnd, OnFrame;
    assert Seen(x, rx.handled + [f]) == Seen(x, rx.handled) + [f];
    DataSnoc(x.sid, Seen(x, rx.handled), f);
    FrameActions(digest, rx.engine, isClient, f);
    FrameAsked(digest, rx.engine, isClient, f);
  }

  lemma FrameDelivers(digest: Text -> Text, s: Session, f: Frame)
    requires AllDelivered(s) && s.rx.at.Next? && s.rx.todo == [] && HEADER_SIZE + |f.data| <= |s.rx.pending|
    ensures AllDelivered(s.(rx := HandleFrame(digest, s.rx, s.isClient, f)))
  {
    hide Delivered, HandleFrame;
    forall o | 0 <= o < |s.table.objs|
      ensures Delivered(s.table.objs[o], o, s.table.Attached(o), HandleFrame(digest, s.rx, s.isClient, f))
    {
      FrameDelivered(digest, s.isClient, s.table.objs[o], o, s.table.Attached(o), s.rx, f);
    }
  }

  /** The first section of an action, for one stream. `at` is where the loop goes next. */
  lemma ActDelivered(x: Stream, o: nat, before: bool, after: bool, rx: Receiver, at: At)
    requires Delivered(x, o, before, rx) && rx.at.Next? && rx.todo != [] && (after ==> before)
    requires AskedBy(false, Last(rx.handled), rx.todo) || AskedBy(true, Last(rx.handled), rx.todo)
    requires at.PushFound? ==> rx.todo[0].PushStreamData? && at.data == rx.todo[0].data
    requires at.PushFound? && before && rx.todo[0].sid == x.sid ==> at.o == o
    requires at.PushFound? && at.o == o ==> before && rx.todo[0].sid == x.sid
    requires rx.todo[0].PushStreamData? && before && rx.todo[0].sid == x.sid ==> at.PushFound?
    requires at.PeerRemoved? && at.o == o ==> before && CloseNext(rx, x.sid) && at.error == EndErrorOf(Last(rx.handled))
    requires CloseNext(rx, x.sid) ==> !after
    requires at.Next? || at.Stopped? || at.Creating? || at.PushFound? || at.PeerRemoved?
    ensures Delivered(x, o, after, rx.(todo := rx.todo[1..], at := at))
  {
    hide EndedFor, DataFor, FirstEnd;
    var f := Last(rx.handled);
    assert Asks(false, f, rx.todo[0]) || Asks(true, f, rx.todo[0]);
    if at.PeerRemoved? && at.o == o {
      assert Seen(x, rx.handled) == Seen(x, rx.handled)[..|Seen(x, rx.handled)| - 1] + [f];
      DataSnoc(x.sid, Seen(x, rx.handled)[..|Seen(x, rx.handled)| - 1], f);
    }
  }

  lemma ActDelivers(s: Session, acked: bool)
    requires AllDelivered(s) && Tracks(s) && MapOk(s.table.streams, s.table.objs)
    requires s.rx.at.Next? && s.rx.todo != []
    ensures AllDelivered(ActionStep(s.(rx := s.rx.(todo := s.rx.todo[1..])), s.rx.todo[0], acked))
  {
    var s' := ActionStep(s.(rx := s.rx.(todo := s.rx.todo[1..])), s.rx.todo[0], acked);
    ActEffect(s, acked);
    hide Delivered, ActionStep, WorksOn;
    forall o | 0 <= o < |s'.table.objs|
      ensures Delivered(s'.table.objs[o], o, s'.table.Attached(o), s'.rx)
    {
      assert Delivered(s.table.objs[o], o, s.table.Attached(o), s.rx);
      ActDelivered(s.table.objs[o], o, s.table.Attached(o), s'.table.Attached(o), s.rx, s'.rx.at);
    }
  }

  /** What an action that ends a stream says about it. */
  function ErrorOf(action: Action): Option<Error>
    requires action.CloseLocalStream? || action.CloseRemoteStream?
  {
    if action.CloseRemoteStream? then Some(Ascii("remote: ") + action.message) else None
  }

  /** The first section of an action touches no stream object and sends the loop where it belongs. */
  lemma ActEffect(s: Session, acked: bool)
    requires s.rx.at.Next? && s.rx.todo != []
    ensures var action := s.rx.todo[0];
            var s' := ActionStep(s.(rx := s.rx.(todo := s.rx.todo[1..])), action, acked);
            var streams := s.table.streams;
            && s'.table.objs == s.table.objs
            && s'.rx == s.rx.(todo := s.rx.todo[1..], at := s'.rx.at)
            && (if action.PushStreamData? && action.sid in streams then s'.rx.at == PushFound(streams[action.sid], action.data)
                else if action.CloseLocalStream? || action.CloseRemoteStream? then
                  (if action.sid in streams then s'.rx.at == PeerRemoved(streams[action.sid], ErrorOf(action)) else s'.rx.at.Next?)
                else s'.rx.at.Next? || s'.rx.at.Stopped? || s'.rx.at.Creating?)
            && s'.table.streams == (if action.CloseLocalStream? || action.CloseRemoteStream? then streams - {action.sid} else streams)
  {
    hide ActionStep;
    var s1 := s.(rx := s.rx.(todo := s.rx.todo[1..]));
    ActionRx(s1, s.rx.todo[0], acked);
    ActionGoes(s1, s.rx.todo[0], acked);
    ActionStreams(s1, s.rx.todo[0], acked);
  }

  lemma ActionGoes(s: Session, action: Action, acked: bool)
    requires s.rx.at.Next?
    ensures var at, streams := ActionStep(s, action, acked).rx.at, s.table.streams;
            if action.PushStreamData? && action.sid in streams then at == PushFound(streams[action.sid], action.data)
            else if action.CloseLocalStream? || action.CloseRemoteStream? then
              (if action.sid in streams then at == PeerRemoved(streams[action.sid], ErrorOf(action)) else at.Next?)
            else at.Next? || at.Stopped? || at.Creating?
  {
    hide Ascii;
  }

  lemma ActionStreams(s: Session, action: Action, acked: bool)
    ensures var streams := ActionStep(s, action, acked).table.streams;
            streams == if action.CloseLocalStream? || action.CloseRemoteStream? then s.table.streams - {action.sid}
                       else s.table.streams
  {
    hide Ascii;
  }

  /** The loop moves on without touching this stream, which has nothing in flight. */
  lemma GotoDelivered(x: Stream, o: nat, attached: bool, rx: Receiver, at: At)
    requires Delivered(x, o, attached, rx) && rx.todo == [] && !rx.at.Next? && !rx.at.Stopped?
    requires at.Next? || ((at.PushChecked? || at.PushPipe? || at.PushFailed? || at.PeerFinish?) && at.o != o)
    requires rx.at.Creating? || rx.at.o != o || (x.Closed() && !rx.at.PeerFinish?)
    ensures Delivered(x, o, attached, rx.(at := at))
  {
    hide EndedFor, DataFor, FirstEnd;
  }

  /** The loop's own stream after a section of a push. */
  lemma PushDelivered(x: Stream, o: nat, attached: bool, rx: Receiver)
    requires Delivered(x, o, attached, rx) && rx.todo == []
    requires (rx.at.PushFound? || rx.at.PushChecked?) && rx.at.o == o && !x.Closed()
    ensures rx.at.PushFound? ==> Delivered(x, o, attached, rx.(at := PushChecked(o, rx.at.data)))
    ensures rx.at.PushChecked? ==> Delivered(x, o, attached, rx.(at := PushPipe(o, rx.at.data)))
  {
    hide EndedFor, DataFor;
  }

  lemma WriteDelivered(x: Stream, o: nat, attached: bool, rx: Receiver)
    requires Delivered(x, o, attached, rx) && rx.todo == []
    requires rx.at.PushPipe? && rx.at.o == o && Accepts(x.pipe)
    ensures Delivered(x.(pipe := Apply(x.pipe, Write(rx.at.data))), o, attached, rx.(at := Next))
  {
    hide EndedFor, DataFor;
  }

  lemma PeerDelivered(x: Stream, o: nat, attached: bool, rx: Receiver, error: Option<Error>)
    requires Delivered(x, o, attached, rx) && rx.todo == [] && StreamOk(x)
    requires rx.at.PeerRemoved? && rx.at.o == o && rx.at.error == error && !x.Closed()
    ensures Delivered(x.(closedBy := Some(Peer)), o, attached, rx.(at := PeerFinish(o, error)))
  {
    hide EndedFor, DataFor;
  }

  lemma FinishDelivered(x: Stream, o: nat, attached: bool, rx: Receiver, error: Option<Error>)
    requires Delivered(x, o, attached, rx) && rx.todo == [] && Inv(x.pipe)
    requires rx.at.PeerFinish? && rx.at.o == o && rx.at.error == error && x.Closed()
    ensures Delivered(x.(pipe := Apply(x.pipe, Finish(error))), o, attached, rx.(at := Next))
  {
    hide EndedFor, DataFor;
  }

  /** The loop's stream is dealt with; every other one has nothing in flight. */
  lemma OneDelivers(s: Session, s': Session, o: nat)
    requires AllDelivered(s) && s.rx.todo == [] && !s.rx.at.Next? && !s.rx.at.Stopped? && !s.rx.at.Creating?
    requires s.rx.at.o == o < |s.table.objs| && s'.rx == s.rx.(at := s'.rx.at) && s'.table.streams == s.table.streams
    requires |s'.table.objs| == |s.table.objs| && s'.table.objs == s.table.objs[o := s'.table.objs[o]] && s'.table.objs[o].sid == s.table.objs[o].sid
    requires s'.rx.at.Next? ||
             ((s'.rx.at.PushChecked? || s'.rx.at.PushPipe? || s'.rx.at.PushFailed? || s'.rx.at.PeerFinish?) && s'.rx.at.o == o)
    requires Delivered(s'.table.objs[o], o, s'.table.Attached(o), s'.rx)
    ensures AllDelivered(s')
  {
    hide Delivered;
    forall p | 0 <= p < |s'.table.objs|
      ensures Delivered(s'.table.objs[p], p, s'.table.Attached(p), s'.rx)
    {
      if p != o {
        assert Delivered(s.table.objs[p], p, s.table.Attached(p), s.rx);
        GotoDelivered(s.table.objs[p], p, s.table.Attached(p), s.rx, s'.rx.at);
      }
    }
  }

  lemma PushShape(s: Session)
    requires IsPush(s.rx.at) && AtInRange(s.rx.at, |s.table.objs|)
    ensures var s', o := PushStep(s, s.rx.at), s.rx.at.o;
            && s'.rx == s.rx.(at := s'.rx.at) && s'.table.streams == s.table.streams
            && |s'.table.objs| == |s.table.objs| && s'.table.objs == s.table.objs[o := s'.table.objs[o]]
            && s'.table.objs[o].sid == s.table.objs[o].sid
            && (s.table.objs[o].Closed() && !(s.rx.at.PushPipe? && Accepts(s.table.objs[o].pipe)) ==>
                  s'.rx.at.Next? || s'.rx.at.PushFailed?)
            && (s'.rx.at.Next? || s'.rx.at.Stopped?
                || ((s'.rx.at.PushChecked? || s'.rx.at.PushPipe? || s'.rx.at.PushFailed?) && s'.rx.at.o == o))
            && (s'.rx.at.Stopped? ==> !s.table.objs[o].Closed() && s.rx.at.PushFailed?)
            && ((s.rx.at.PushPipe? && Accepts(s.table.objs[o].pipe)) || s'.table == s.table)
  {
    hide Apply, Accepts;
  }

  lemma OneOf(s: Session, o: nat)
    requires AllDelivered(s) && o < |s.table.objs|
    ensures Delivered(s.table.objs[o], o, s.table.Attached(o), s.rx)
  {
    hide Delivered;
  }

  lemma PushDelivers(s: Session)
    requires AllDelivered(s) && s.rx.todo == [] && IsPush(s.rx.at) && AtOk(s.table.objs, s.rx.at)
    requires !Accepts(s.table.objs[s.rx.at.o].pipe) ==> s.table.objs[s.rx.at.o].Closed()
    ensures AllDelivered(PushStep(s, s.rx.at))
  {
    hide AllDelivered, Delivered, PushStep, Accepts;
    PushShape(s);
    PushOne(s);
    OneDelivers(s, PushStep(s, s.rx.at), s.rx.at.o);
  }

  /** The stream the loop is pushing to. */
  lemma PushOne(s: Session)
    requires AllDelivered(s) && s.rx.todo == [] && IsPush(s.rx.at) && AtOk(s.table.objs, s.rx.at)
    requires !Accepts(s.table.objs[s.rx.at.o].pipe) ==> s.table.objs[s.rx.at.o].Closed()
    ensures var s', o := PushStep(s, s.rx.at), s.rx.at.o;
            o < |s'.table.objs| && Delivered(s'.table.objs[o], o, s'.table.Attached(o), s'.rx)
  {
    hide AllDelivered, Delivered, PushStep, Accepts;
    var o := s.rx.at.o;
    var x := s.table.objs[o];
    OneOf(s, o);
    PushShape(s);
    if s.rx.at.PushPipe? && Accepts(x.pipe) {
      PushWrites(s);
    } else if x.Closed() {
      ClosedDelivered(x, o, s.table.Attached(o), s.rx, PushStep(s, s.rx.at).rx.at);
    } else {
      PushMoves(s);
    }
  }

  lemma PushWrites(s: Session)
    requires s.rx.todo == [] && s.rx.at.PushPipe? && s.rx.at.o < |s.table.objs|
    requires Accepts(s.table.objs[s.rx.at.o].pipe)
    requires Delivered(s.table.objs[s.rx.at.o], s.rx.at.o, s.table.Attached(s.rx.at.o), s.rx)
    ensures var s', o := PushStep(s, s.rx.at), s.rx.at.o;
            o < |s'.table.objs| && Delivered(s'.table.objs[o], o, s'.table.Attached(o), s'.rx)
  {
    hide Delivered, Apply;
    var o := s.rx.at.o;
    WriteDelivered(s.table.objs[o], o, s.table.Attached(o), s.rx);
  }

  lemma PushMoves(s: Session)
    requires s.rx.todo == [] && (s.rx.at.PushFound? || s.rx.at.PushChecked?) && s.rx.at.o < |s.table.objs|
    requires Delivered(s.table.objs[s.rx.at.o], s.rx.at.o, s.table.Attached(s.rx.at.o), s.rx)
    requires !s.table.objs[s.rx.at.o].Closed()
    ensures var s', o := PushStep(s, s.rx.at), s.rx.at.o;
            o < |s'.table.objs| && Delivered(s'.table.objs[o], o, s'.table.Attached(o), s'.rx)
  {
    hide Delivered, Apply, Accepts;
    var o := s.rx.at.o;
    PushDelivered(s.table.objs[o], o, s.table.Attached(o), s.rx);
  }

  /** A closed stream stands aside while the loop gives up on its data. */
  lemma ClosedDelivered(x: Stream, o: nat, attached: bool, rx: Receiver, at: At)
    requires Delivered(x, o, attached, rx) && rx.todo == [] && !rx.at.Next? && !rx.at.Stopped? && !rx.at.Creating?
    requires x.Closed() && !rx.at.PeerFinish? && (at.Next? || at.PushFailed?)
    ensures Delivered(x, o, attached, rx.(at := at))
  {
    hide EndedFor, DataFor;
  }

  lemma LifeDelivers(s: Session)
    requires AllDelivered(s) && Tracks(s) && Sound(s)
    requires s.rx.at.PeerRemoved? || s.rx.at.PeerFinish?
    ensures AllDelivered(LifeStep(s, s.rx.at))
  {
    var o := s.rx.at.o;
    var x := s.table.objs[o];
    assert Delivered(x, o, s.table.Attached(o), s.rx) && StreamOk(x);
    hide AllDelivered, Delivered, Apply, AskedBy, WorksOn, TableOk, TasksOk, TodoOk, Inv;
    if s.rx.at.PeerFinish? {
      FinishDelivered(x, o, s.table.Attached(o), s.rx, s.rx.at.error);
    } else if x.Closed() {
      ClosedDelivered(x, o, s.table.Attached(o), s.rx, Next);
    } else {
      PeerDelivered(x, o, s.table.Attached(o), s.rx, s.rx.at.error);
    }
    OneDelivers(s, LifeStep(s, s.rx.at), o);
  }

  lemma CreateDelivers(s: Session)
    requires AllDelivered(s) && Tracks(s) && AtOk(s.table.objs, s.rx.at) && s.rx.at.Creating?
    ensures AllDelivered(LifeStep(s, s.rx.at))
  {
    hide Delivered, AskedBy;
    var s' := LifeStep(s, s.rx.at);
    var s1 := s'.(rx := s.rx);
    if s.rx.at.sid in s.table.streams {
      assert s1 == s;
    } else {
      InsertDelivers(s, s.table, s.rx.at.sid, true);
    }
    forall o | 0 <= o < |s'.table.objs|
      ensures Delivered(s'.table.objs[o], o, s'.table.Attached(o), s'.rx)
    {
      assert Delivered(s1.table.objs[o], o, s1.table.Attached(o), s1.rx);
      GotoDelivered(s1.table.objs[o], o, s1.table.Attached(o), s1.rx, Next);
    }
  }

  lemma ReceiveDelivers(digest: Text -> Text, s: Session, progress: Progress)
    requires AllDelivered(s) && Tracks(s) && Sound(s) && ProgressPossible(s, progress)
    ensures AllDelivered(ReceiveStep(digest, s, progress))
  {
    hide AllDelivered, Sound, AskedBy, WorksOn, HandleFrame, ActionStep, PushStep, LifeStep;
    MapFacts(s);
    match progress
    case Arrive(chunk) => IdleLoopDelivers(s, ReceiveStep(digest, s, progress)); return;
    case TakeFrame => FrameDelivers(digest, s, Decode(s.rx.pending).value); return;
    case Act(acked) => ActDelivers(s, acked); return;
    case Continue =>
      if s.rx.at.Creating? {
        CreateDelivers(s);
      } else {
        ClosedPipeClosedStream(s, s.rx.at.o);
        if IsPush(s.rx.at) {
          PushDelivers(s);
        } else {
          LifeDelivers(s);
        }
      }
      return;
    case Fail => IdleLoopDelivers(s, ReceiveStep(digest, s, progress)); return;
  }

  lemma IdleLoopDelivers(s: Session, s': Session)
    requires AllDelivered(s) && s'.table == s.table && s.rx.at.Next? && s.rx.todo == [] && s'.rx.todo == []
    requires (s'.rx.at.Next? || s'.rx.at.Stopped?) && s'.rx.handled == s.rx.handled
    ensures AllDelivered(s')
  {
    hide EndedFor, DataFor;
  }

  lemma LoopOk(s: Session)
    requires Sound(s)
    ensures AtOk(s.table.objs, s.rx.at)
  {
  }

  lemma StepDelivers(digest: Text -> Text, s: Session, ev: Event)
    requires AllDelivered(s) && Tracks(s) && Sound(s) && Possible(s, ev)
    ensures AllDelivered(Step(digest, s, ev))
  {
    hide AllDelivered, Tracks, Sound, CallStep, OpenTaskStep, CloseTaskStep, ReceiveStep;
    match ev
    case Api(call) => CallDelivers(s, call);
    case RunTask(t) =>
      var s' := s.(tasks := s.tasks - multiset{t});
      TaskFacts(s, t);
      SameKeeps(s, s');
      LoopOk(s);
      AsideSame(s, s');
      GrowsRefl(s.table.objs);
      TracksGrows(s, s');
      if IsOpenTask(t) {
        OpenTaskDelivers(s', t);
      } else {
        CloseTaskDelivers(s', t);
      }
    case Receive(progress) => ReceiveDelivers(digest, s, progress);
  }

  // ---- From bytes to frames ----

  /** The frames taken, the frames still pending and the unparsed tail are those of the bytes received. */
  ghost predicate Reassembled(rx: Receiver)
  {
    && rx.handled + Parsed(rx.pending) == Parsed(rx.received)
    && Tail(rx.pending) == Tail(rx.received)
  }

  lemma ArriveReassembled(rx: Receiver, chunk: seq<Byte>)
    requires Reassembled(rx) && Decode(rx.pending).None?
    ensures Reassembled(rx.(pending := rx.pending + chunk, received := rx.received + chunk))
  {
    ParseSplit(rx.received, chunk);
    assert rx.handled + [] == rx.handled;
  }

  lemma TakeReassembled(digest: Text -> Text, rx: Receiver, isClient: bool)
    requires Reassembled(rx) && Decode(rx.pending).Some?
    ensures Reassembled(HandleFrame(digest, rx, isClient, Decode(rx.pending).value))
  {
    hide OnFrame;
    var f := Decode(rx.pending).value;
    var rest := rx.pending[HEADER_SIZE + |f.data|..];
    assert Parsed(rx.pending) == [f] + Parsed(rest) && Tail(rx.pending) == Tail(rest);
    hide Parsed, Tail, Decode;
    Assoc(rx.handled, [f], Parsed(rest));
  }

  /** In every run, with any chunking of the wire: the session is sound, the frames handled are
      those of the bytes received, and every stream has accepted what was addressed to it. */
  lemma {:induction false} DeliveryRuns(digest: Text -> Text, init: Session, events: seq<Event>)
    requires Sound(init) && Tracks(init) && AllDelivered(init) && Reassembled(init.rx)
    requires Run(digest, init, events).Some?
    ensures var s := Run(digest, init, events).value;
            Sound(s) && Tracks(s) && AllDelivered(s) && Reassembled(s.rx)
  {
    hide Step, Possible, Sound, Tracks, AllDelivered, Reassembled;
    if events != [] {
      var front, last := events[..|events| - 1], events[|events| - 1];
      var s := Run(digest, init, front).value;
      DeliveryRuns(digest, init, front);
      StepKeeps(digest, s, last);
      TracksStep(digest, s, last);
      StepDelivers(digest, s, last);
      StepReassembles(digest, s, last);
    }
  }

  /** Stream isolation in every reachable state of either end. */
  lemma IsolationInRuns(digest: Text -> Text, isClient: bool, cap: nat, engine: Engine.State, order: seq<(Text, Text)>,
                        events: seq<Event>, progress: Progress)
    requires Run(digest, NewSession(isClient, cap, engine, order), events).Some?
    requires var s := Run(digest, NewSession(isClient, cap, engine, order), events).value;
             && ProgressPossible(s, progress) && !progress.Arrive? && !progress.Fail?
             && (progress.TakeFrame? ==> StreamFrame(Decode(s.rx.pending).value))
             && (!progress.TakeFrame? ==> s.rx.handled != [] && StreamFrame(Last(s.rx.handled)))
    ensures var s := Run(digest, NewSession(isClient, cap, engine, order), events).value;
            var s' := ReceiveStep(digest, s, progress);
            s'.rx.handled != [] && Isolated(s, s', Last(s'.rx.handled).sid)
  {
    InitiallyDelivered(isClient, cap, engine, order);
    hide NewSession, Sound, Tracks, AllDelivered, Reassembled, ReceiveStep, Isolated;
    DeliveryRuns(digest, NewSession(isClient, cap, engine, order), events);
    StreamIsolation(digest, Run(digest, NewSession(isClient, cap, engine, order), events).value, progress);
  }

  lemma StepReassembles(digest: Text -> Text, s: Session, ev: Event)
    requires Reassembled(s.rx) && Possible(s, ev)
    ensures Reassembled(Step(digest, s, ev).rx)
  {
    hide Reassembled, CallStep, OpenTaskStep, CloseTaskStep, HandleFrame, ActionStep, PushStep, LifeStep;
    match ev
    case Receive(Arrive(chunk)) => ArriveReassembled(s.rx, chunk);
    case Receive(TakeFrame) => TakeReassembled(digest, s.rx, s.isClient);
    case Receive(_) =>
      ReceiveHandled(digest, s, ev.progress);
      SameBytes(s.rx, Step(digest, s, ev).rx);
    case _ => OutsideRx(digest, s, ev);
  }

  lemma SameBytes(rx: Receiver, rx': Receiver)
    requires Reassembled(rx) && rx'.handled == rx.handled && rx'.pending == rx.pending && rx'.received == rx.received
    ensures Reassembled(rx')
  {
  }

  lemma OutsideRx(digest: Text -> Text, s: Session, ev: Event)
    requires Possible(s, ev) && !ev.Receive?
    ensures Step(digest, s, ev).rx == s.rx
  {
    hide Apply, Ascii, Enabled;
  }

  lemma InitiallyDelivered(isClient: bool, cap: nat, engine: Engine.State, order: seq<(Text, Text)>)
    ensures var s := NewSession(isClient, cap, engine, order);
            Sound(s) && Tracks(s) && AllDelivered(s) && Reassembled(s.rx)
  {
    InitiallySound(isClient, cap, engine, order);
  }
}
