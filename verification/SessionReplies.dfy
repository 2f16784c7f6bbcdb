/** The frames a server session queues: they name only streams it has, and carry what was written
    to each. */
module SessionReplies {
  import opened Bytes
  import opened Texts
  import opened Frames
  import opened Engine
  import opened Pipes
  import opened Sessions
  import opened SessionSafety
  import opened SessionReceive
  import opened SessionOutbox
  import opened SessionTermination

  ghost predicate Known(objs: seq<Stream>, sid: U32)
  {
    exists o :: 0 <= o < |objs| && objs[o].sid == sid
  }

  ghost predicate OnlyKnown(objs: seq<Stream>, frames: seq<Frame>)
  {
    forall sid: U32 :: Mentions(frames, sid) ==> Known(objs, sid)
  }

  ghost predicate AllSent(objs: seq<Stream>, frames: seq<Frame>)
  {
    forall o :: 0 <= o < |objs| ==> Payload(objs[o].sid, frames) == objs[o].sent
  }

  ghost predicate RepliesOk(s: Session)
  {
    Unpadded(s.channel.frames) && OnlyKnown(s.table.objs, s.channel.frames) && AllSent(s.table.objs, s.channel.frames)
  }

  // ---- What a step may do ----

  /** The streams keep their names and what they have sent. */
  ghost predicate Kept(a: seq<Stream>, b: seq<Stream>)
  {
    |a| == |b| && forall o :: 0 <= o < |a| ==> b[o].sid == a[o].sid && b[o].sent == a[o].sent
  }

  lemma KnownKept(a: seq<Stream>, b: seq<Stream>, sid: U32)
    requires Kept(a, b) && Known(a, sid)
    ensures Known(b, sid)
  {
    var o :| 0 <= o < |a| && a[o].sid == sid;
    assert b[o].sid == sid;
  }

  lemma RepliesKept(s: Session, s': Session)
    requires RepliesOk(s) && Kept(s.table.objs, s'.table.objs) && s'.channel.frames == s.channel.frames
    ensures RepliesOk(s')
  {
    hide Mentions, Payload, Unpadded, Known;
    forall sid: U32 | Mentions(s'.channel.frames, sid)
      ensures Known(s'.table.objs, sid)
    {
      KnownKept(s.table.objs, s'.table.objs, sid);
    }
  }

  /** A frame that carries no data, and names no stream or a known one. */
  lemma RepliesFrame(s: Session, s': Session, f: Frame)
    requires RepliesOk(s) && Kept(s.table.objs, s'.table.objs) && s'.channel == s.channel.Send(f)
    requires !f.cmd.Waste? && !f.cmd.Psh? && (Talks(f) ==> Known(s.table.objs, f.sid))
    ensures RepliesOk(s')
  {
    hide Mentions, Payload, Known;
    if s.channel.gone {
      RepliesKept(s, s');
      return;
    }
    var fs := s.channel.frames;
    forall sid: U32 | Mentions(fs + [f], sid)
      ensures Known(s'.table.objs, sid)
    {
      Snoc(fs, f, sid);
      KnownKept(s.table.objs, s'.table.objs, sid);
    }
    forall o | 0 <= o < |s'.table.objs|
      ensures Payload(s'.table.objs[o].sid, fs + [f]) == s'.table.objs[o].sent
    {
      Snoc(fs, f, s.table.objs[o].sid);
      assert s.table.objs[o].sent + [] == s.table.objs[o].sent;
    }
  }

  lemma RepliesData(s: Session, s': Session, o: nat, data: seq<Byte>)
    requires RepliesOk(s) && o < |s.table.objs| && Distinct(s.table.objs)
    requires s'.channel.frames == s.channel.frames + [Frame(Psh, s.table.objs[o].sid, data)]
    requires s'.table.objs == s.table.objs[o := s.table.objs[o].(sent := s.table.objs[o].sent + data)]
    ensures RepliesOk(s')
  {
    hide Mentions, Payload;
    var fs, f := s.channel.frames, Frame(Psh, s.table.objs[o].sid, data);
    forall sid: U32 | Mentions(fs + [f], sid)
      ensures Known(s'.table.objs, sid)
    {
      Snoc(fs, f, sid);
      var p :| 0 <= p < |s.table.objs| && s.table.objs[p].sid == sid;
      assert s'.table.objs[p].sid == sid;
    }
    forall p | 0 <= p < |s'.table.objs|
      ensures Payload(s'.table.objs[p].sid, fs + [f]) == s'.table.objs[p].sent
    {
      Snoc(fs, f, s.table.objs[p].sid);
      assert p != o ==> s.table.objs[p].sent + [] == s.table.objs[p].sent;
    }
  }

  lemma RepliesCreate(s: Session)
    requires RepliesOk(s) && s.rx.at.Creating? && Distinct(LifeStep(s, s.rx.at).table.objs)
    ensures RepliesOk(LifeStep(s, s.rx.at))
  {
    hide Mentions, Payload, Unpadded;
    var s' := LifeStep(s, s.rx.at);
    var n, sid := |s.table.objs|, s.rx.at.sid;
    if sid !in s.table.streams {
      forall o | 0 <= o < n
        ensures s.table.objs[o].sid != sid
      {
        assert s'.table.objs[o].sid != s'.table.objs[n].sid;
      }
      assert !Known(s.table.objs, sid);
      Unmentioned(s.channel.frames, sid);
      forall known: U32 | Mentions(s.channel.frames, known)
        ensures Known(s'.table.objs, known)
      {
        var o :| 0 <= o < n && s.table.objs[o].sid == known;
        assert s'.table.objs[o].sid == known;
      }
    }
  }

  // ---- Every step ----

  lemma KnownStream(objs: seq<Stream>, o: nat)
    requires o < |objs|
    ensures Known(objs, objs[o].sid)
  {
  }

  lemma RepliesCall(s: Session, call: Call)
    requires RepliesOk(s) && CallPossible(s, call)
    ensures RepliesOk(CallStep(s, call))
  {
    hide RepliesOk, Apply, Known;
    var s' := CallStep(s, call);
    if call.Handshake? {
      KnownStream(s.table.objs, call.o);
      if s.rx.engine.peerVersion >= MIN_PROTOCOL_VERSION {
        RepliesFrame(s, s', Frame(SynAck, s.table.objs[call.o].sid, call.error));
      }
    } else {
      RepliesKept(s, s');
    }
  }

  lemma RepliesOpenTask(s: Session, t: Task)
    requires RepliesOk(s) && IsOpenTask(t) && !t.OpenLock? && TaskInRange(t, |s.table.objs|) && Distinct(s.table.objs)
    ensures RepliesOk(OpenTaskStep(s, t))
  {
    hide RepliesOk, Ascii, Known, Distinct;
    var s' := OpenTaskStep(s, t);
    KnownStream(s.table.objs, t.o);
    if s.channel.gone || t.UndoOpen? {
      RepliesKept(s, s');
    } else if t.SendSyn? {
      RepliesFrame(s, s', Frame(Syn, s.table.objs[t.o].sid, []));
    } else {
      RepliesData(s, s', t.o, t.data);
    }
  }

  lemma RepliesCloseTask(s: Session, t: Task)
    requires RepliesOk(s) && !IsOpenTask(t) && TaskInRange(t, |s.table.objs|)
    ensures RepliesOk(CloseTaskStep(s, t))
  {
    hide RepliesOk, Apply, Known;
    var s' := CloseTaskStep(s, t);
    if t.SendFin? && !s.channel.gone {
      KnownStream(s.table.objs, t.o);
      var f := Frame(Fin, s.table.objs[t.o].sid, []);
      RepliesFrame(s, s.Send(f), f);
      RepliesKept(s.Send(f), s');
    } else {
      RepliesKept(s, s');
    }
  }

  lemma RepliesAction(s: Session, action: Action, acked: bool)
    requires RepliesOk(s) && (action.SendFrame? || action.SendFrameSync? ==> Quiet(action.frame))
    ensures RepliesOk(ActionStep(s, action, acked))
  {
    hide RepliesOk, Ascii, Known;
    var s' := ActionStep(s, action, acked);
    if (action.SendFrame? && !s.channel.gone) || action.SendFrameSync? {
      RepliesFrame(s, s', action.frame);
    } else if action.AlertAndFail? {
      RepliesFrame(s, s', Frame(Alert, 0, action.message));
    } else {
      RepliesKept(s, s');
    }
  }

  lemma RepliesPush(s: Session)
    requires RepliesOk(s) && IsPush(s.rx.at) && AtInRange(s.rx.at, |s.table.objs|)
    ensures RepliesOk(PushStep(s, s.rx.at))
  {
    hide RepliesOk, Apply, Accepts;
    RepliesKept(s, PushStep(s, s.rx.at));
  }

  lemma RepliesLife(s: Session)
    requires RepliesOk(s) && (s.rx.at.PeerRemoved? || s.rx.at.PeerFinish?) && AtInRange(s.rx.at, |s.table.objs|)
    ensures RepliesOk(LifeStep(s, s.rx.at))
  {
    hide RepliesOk, Apply;
    RepliesKept(s, LifeStep(s, s.rx.at));
  }

  lemma RepliesReceive(digest: Text -> Text, s: Session, progress: Progress)
    requires RepliesOk(s) && Tracks(s) && ProgressPossible(s, progress)
    requires Distinct(ReceiveStep(digest, s, progress).table.objs)
    ensures RepliesOk(ReceiveStep(digest, s, progress))
  {
    hide RepliesOk, Distinct, WorksOn, HandleFrame, ActionStep, PushStep, LifeStep, Decode;
    match progress
    case Act(acked) =>
      var s' := s.(rx := s.rx.(todo := s.rx.todo[1..]));
      RepliesKept(s, s');
      RepliesAction(s', s.rx.todo[0], acked);
      return;
    case Continue =>
      if s.rx.at.Creating? {
        RepliesCreate(s);
      } else if IsPush(s.rx.at) {
        RepliesPush(s);
      } else {
        RepliesLife(s);
      }
      return;
    case _ => RepliesKept(s, ReceiveStep(digest, s, progress)); return;
  }

  /** Every step of a server session whose streams have distinct names. */
  lemma RepliesStep(digest: Text -> Text, s: Session, ev: Event)
    requires RepliesOk(s) && Sound(s) && Tracks(s) && OpenLock !in s.tasks && Possible(s, ev)
    requires Distinct(Step(digest, s, ev).table.objs)
    ensures RepliesOk(Step(digest, s, ev))
  {
    hide RepliesOk, Sound, Tracks, Grows, Distinct, CallStep, OpenTaskStep, CloseTaskStep, ReceiveStep;
    StepKeeps(digest, s, ev);
    DistinctBefore(s.table.objs, Step(digest, s, ev).table.objs);
    match ev
    case Api(call) => RepliesCall(s, call);
    case RunTask(t) =>
      var s' := s.(tasks := s.tasks - multiset{t});
      KeptRefl(s.table.objs);
      RepliesKept(s, s');
      if IsOpenTask(t) {
        RepliesOpenTask(s', t);
      } else {
        RepliesCloseTask(s', t);
      }
    case Receive(progress) => RepliesReceive(digest, s, progress);
  }

  lemma KeptRefl(objs: seq<Stream>)
    ensures Kept(objs, objs)
  {
  }
}
