/** A client session over every interleaving: stream identifiers, the stream cap and the drained
    map. */
module SessionLifecycle {
  import opened Bytes
  import opened Options
  import opened Texts
  import opened Frames
  import opened Engine
  import opened Pipes
  import opened Sessions
  import opened SessionSafety
  import StringMaps

  const IDS: nat := 0x1_0000_0000

  /** While fewer than 2^32 identifiers were drawn, each was used once, in order, from 1 on. */
  ghost predicate IdsInOrder(table: Table)
  {
    && table.nextId == table.opens % IDS
    && (table.opens < IDS ==> |table.objs| == table.opens)
    && (table.opens < IDS ==> forall i :: 0 <= i < |table.objs| ==> table.objs[i].sid == i + 1)
  }

  /** A client neither accepts incoming streams nor is about to. */
  ghost predicate NoIncoming(rx: Receiver)
  {
    !rx.at.Creating? && forall i :: 0 <= i < |rx.todo| ==> !rx.todo[i].EnsureIncomingStream?
  }

  /** Once a termination has drained the map of a client, it stays empty. */
  ghost predicate DrainedForGood(s: Session)
  {
    && (Drain in s.tasks || s.table.drained ==> s.table.closed)
    && (s.table.drained ==> s.table.streams == map[])
  }

  ghost predicate ClientOk(s: Session)
  {
    && s.isClient
    && NoIncoming(s.rx)
    && IdsInOrder(s.table)
    && |s.table.streams| <= s.cap
    && DrainedForGood(s)
  }

  lemma RemoveSize(m: map<U32, nat>, sid: U32)
    ensures |m - {sid}| <= |m|
    ensures m == map[] ==> m - {sid} == map[]
  {
    var rest := m - {sid};
    assert rest.Keys == m.Keys - {sid};
    assert |rest| == |rest.Keys| && |m| == |m.Keys|;
  }

  lemma InsertSize(m: map<U32, nat>, sid: U32, o: nat)
    ensures |m[sid := o]| <= |m| + 1
  {
    assert m[sid := o].Keys == m.Keys + {sid};
    assert |m[sid := o]| == |m[sid := o].Keys| && |m| == |m.Keys|;
  }

  lemma ClientRemove(s: Session, sid: U32)
    requires ClientOk(s)
    ensures ClientOk(s.Remove(sid))
  {
    hide IdsInOrder, NoIncoming;
    IdsSame(s.table, s.table.(streams := s.table.streams - {sid}));
    RemoveSize(s.table.streams, sid);
  }

  lemma ReplaceIds(table: Table, o: nat, x: Stream)
    requires IdsInOrder(table) && o < |table.objs| && x.sid == table.objs[o].sid
    ensures IdsInOrder(table.(objs := table.objs[o := x]))
  {
  }

  lemma ClientMark(s: Session, o: nat, cause: Cause)
    requires ClientOk(s) && o < |s.table.objs|
    ensures ClientOk(s.MarkClosed(o, cause))
  {
    hide IdsInOrder;
    ReplaceIds(s.table, o, s.table.objs[o].(closedBy := Some(cause)));
  }

  lemma ClientPipe(s: Session, o: nat, step: PipeStep)
    requires ClientOk(s) && o < |s.table.objs| && Enabled(s.table.objs[o].pipe, step)
    ensures ClientOk(s.OnPipe(o, step))
  {
    hide IdsInOrder, Apply;
    ReplaceIds(s.table, o, s.table.objs[o].(pipe := Apply(s.table.objs[o].pipe, step)));
  }

  lemma ClientCall(s: Session, call: Call)
    requires ClientOk(s) && CallPossible(s, call)
    ensures ClientOk(CallStep(s, call))
  {
    hide IdsInOrder, NoIncoming, Apply;
    match call
    case CloseStream(o) => ClientMark(s, o, Local);
    case ReadStream(o, step) => ClientPipe(s, o, step);
    case Terminate => IdsSame(s.table, s.table.(closed := true));
    case _ =>
  }

  lemma ClientOpenLock(s: Session)
    requires ClientOk(s)
    ensures ClientOk(OpenTaskStep(s, OpenLock))
  {
    hide IdsInOrder, NoIncoming;
    if !s.table.closed && |s.table.streams| < s.cap {
      NextId(s.table, s.rx.Born());
      InsertSize(s.table.streams, (s.table.nextId + 1) % IDS, |s.table.objs|);
    }
  }

  lemma NextId(table: Table, born: nat)
    requires IdsInOrder(table)
    ensures var sid := (table.nextId + 1) % IDS;
            var table' := table.(nextId := sid, opens := table.opens + 1);
            && (sid == 0 ==> IdsInOrder(table'))
            && (sid != 0 ==> IdsInOrder(table'.Insert(sid, born, false)))
  {
    assert (table.nextId + 1) % IDS == (table.opens + 1) % IDS;
  }

  /** A step that keeps the map and changes one stream, the channel or the pending tasks. */
  lemma ClientReplace(s: Session, s': Session, o: nat, x: Stream)
    requires ClientOk(s) && o < |s.table.objs| && x.sid == s.table.objs[o].sid
    requires s'.isClient == s.isClient && s'.cap == s.cap && s'.rx == s.rx
    requires s'.table == s.table.(objs := s.table.objs[o := x]) || s'.table == s.table
    requires Drain in s'.tasks ==> Drain in s.tasks
    ensures ClientOk(s')
  {
    hide IdsInOrder, NoIncoming;
    ReplaceIds(s.table, o, x);
  }

  lemma ClientOpenTask(s: Session, t: Task)
    requires ClientOk(s) && IsOpenTask(t) && TaskInRange(t, |s.table.objs|)
    ensures ClientOk(OpenTaskStep(s, t))
  {
    hide ClientOk, Ascii;
    var s' := OpenTaskStep(s, t);
    match t
    case OpenLock => ClientOpenLock(s); return;
    case SendSyn(o) => ClientReplace(s, s', o, s.table.objs[o].(handed := true)); return;
    case UndoOpen(o) =>
      ClientRemove(s, s.table.objs[o].sid);
      ClientReplace(s.Remove(s.table.objs[o].sid), s', o, s.table.objs[o]);
      return;
    case SendPsh(o, data) =>
      ClientReplace(s, s', o, s.table.objs[o].(sent := s.table.objs[o].sent + data));
      return;
  }

  lemma ClientCloseTask(s: Session, t: Task)
    requires ClientOk(s) && !IsOpenTask(t) && TaskInRange(t, |s.table.objs|) && (t.Drain? ==> s.table.closed)
    ensures ClientOk(CloseTaskStep(s, t))
  {
    hide IdsInOrder, NoIncoming, Apply;
    match t
    case NotifyIdle => IdsSame(s.table, s.table.(idle := true)); return;
    case CloseBySession(o, error) => ClientMark(s, o, SessionEnd); return;
    case FinishPipe(o, error) => ClientPipe(s, o, Finish(error)); return;
    case RemoveSelf(o) => ClientRemove(s, s.table.objs[o].sid); return;
    case ClosePipe(o) => ClientPipe(s, o, CloseLocally(None)); return;
    case SendFin(o) => return;
    case Drain =>
      IdsSame(s.table, s.table.(streams := map[], idle := true, drained := true));
      assert Drain !in Doomed(s.table.streams);
      return;
  }

  lemma IdsSame(table: Table, table': Table)
    requires IdsInOrder(table) && table'.objs == table.objs
    requires table'.nextId == table.nextId && table'.opens == table.opens
    ensures IdsInOrder(table')
  {
  }

  lemma ClientFrame(digest: Text -> Text, rx: Receiver, f: Frame)
    requires NoIncoming(rx) && rx.todo == [] && HEADER_SIZE + |f.data| <= |rx.pending|
    ensures NoIncoming(HandleFrame(digest, rx, true, f))
  {
    hide OnSettings, Ascii;
    SettingsOnlySend(rx.engine, StringMaps.Read(f.data));
  }

  lemma ClientAction(s: Session, action: Action, acked: bool)
    requires ClientOk(s) && !action.EnsureIncomingStream?
    ensures ClientOk(ActionStep(s, action, acked))
  {
    hide Ascii, IdsInOrder;
    if action.CloseLocalStream? || action.CloseRemoteStream? {
      ClientRemove(s, action.sid);
    }
  }

  lemma ClientContinue(digest: Text -> Text, s: Session)
    requires ClientOk(s) && ProgressPossible(s, Continue)
    ensures ClientOk(ReceiveStep(digest, s, Continue))
  {
    hide IdsInOrder, Apply, Accepts;
    match s.rx.at
    case PushPipe(o, data) =>
      if Accepts(s.table.objs[o].pipe) {
        ClientPipe(s, o, Write(data));
      }
      return;
    case PeerRemoved(o, error) => ClientMark(s, o, Peer); return;
    case PeerFinish(o, error) => ClientPipe(s, o, Finish(error)); return;
    case PushFound(o, data) => return;
    case PushChecked(o, data) => return;
    case PushFailed(o) => return;
  }

  lemma ClientReceive(digest: Text -> Text, s: Session, progress: Progress)
    requires ClientOk(s) && ProgressPossible(s, progress)
    ensures ClientOk(ReceiveStep(digest, s, progress))
  {
    hide HandleFrame, ActionStep, PushStep, LifeStep, IdsInOrder;
    match progress
    case TakeFrame => ClientFrame(digest, s.rx, Decode(s.rx.pending).value);
    case Act(acked) => ClientAction(s.(rx := s.rx.(todo := s.rx.todo[1..])), s.rx.todo[0], acked);
    case Continue => ClientContinue(digest, s);
    case _ =>
  }

  lemma ClientStep(digest: Text -> Text, s: Session, ev: Event)
    requires ClientOk(s) && Possible(s, ev)
    ensures ClientOk(Step(digest, s, ev))
  {
    hide CallStep, OpenTaskStep, CloseTaskStep, ReceiveStep, IdsInOrder, NoIncoming;
    match ev
    case Api(call) => ClientCall(s, call);
    case RunTask(t) =>
      var s' := s.(tasks := s.tasks - multiset{t});
      if IsOpenTask(t) {
        ClientOpenTask(s', t);
      } else {
        ClientCloseTask(s', t);
      }
    case Receive(progress) => ClientReceive(digest, s, progress);
  }

  /** In every run of a client session the open streams never exceed the cap, the first 2^32 - 1
      identifiers are distinct and non-zero, and a drained map stays empty. */
  lemma {:induction false} ClientRuns(digest: Text -> Text, init: Session, events: seq<Event>)
    requires ClientOk(init) && Run(digest, init, events).Some?
    ensures ClientOk(Run(digest, init, events).value)
  {
    hide Step, ClientOk;
    if events != [] {
      ClientRuns(digest, init, events[..|events| - 1]);
      ClientStep(digest, Run(digest, init, events[..|events| - 1]).value, events[|events| - 1]);
    }
  }

  lemma ClientStarts(cap: nat, engine: Engine.State, order: seq<(Text, Text)>)
    ensures ClientOk(NewSession(true, cap, engine, order))
  {
  }
}
