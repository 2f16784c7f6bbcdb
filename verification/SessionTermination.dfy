/** Which streams can be lost: every stream is closed, in the map, or about to be closed, until a
    step takes an open one out of the map. Termination is final exactly as far as that goes. */
module SessionTermination {
  import opened Bytes
  import opened Options
  import opened Texts
  import opened Engine
  import opened Pipes
  import opened Sessions
  import opened SessionSafety
  import opened SessionLifecycle

  /** Stream `o` is closed, or still in the map, or somebody is about to close it. */
  ghost predicate Accounted(s: Session, o: nat)
    requires o < |s.table.objs|
  {
    || s.table.objs[o].Closed()
    || s.table.Attached(o)
    || Closing(s, o)
  }

  ghost predicate Closing(s: Session, o: nat)
  {
    || UndoOpen(o) in s.tasks
    || (exists error :: CloseBySession(o, error) in s.tasks)
    || (s.rx.at.PeerRemoved? && s.rx.at.o == o)
  }

  /** Every stream except possibly those in `holes` is accounted for. */
  ghost predicate AllBut(s: Session, holes: set<nat>)
  {
    forall o :: 0 <= o < |s.table.objs| && o !in holes ==> Accounted(s, o)
  }

  ghost predicate AllAccounted(s: Session) { AllBut(s, {}) }

  // ---- The steps that take a stream out of the map ----

  /** The stream that the next section of `t` takes out of the map without closing it. Identifiers
      may have been used before, so it need not be the one the section is about. */
  function TakesOut(s: Session, t: Task): Option<nat>
    requires TaskInRange(t, |s.table.objs|)
  {
    match t
    case OpenLock =>
      var sid := (s.table.nextId + 1) % 0x1_0000_0000;
      if s.table.closed || |s.table.streams| >= s.cap || sid == 0 || sid !in s.table.streams then None
      else Some(s.table.streams[sid])
    case RemoveSelf(o) => Holder(s, s.table.objs[o].sid)
    case UndoOpen(o) =>
      if Holder(s, s.table.objs[o].sid) == Some(o) then None else Holder(s, s.table.objs[o].sid)
    case _ => None
  }

  function Holder(s: Session, sid: U32): Option<nat>
  {
    if sid in s.table.streams then Some(s.table.streams[sid]) else None
  }

  /** The stream is open and nobody is about to close it. */
  ghost predicate Open(s: Session, o: nat)
  {
    o < |s.table.objs| && !s.table.objs[o].Closed() && !Closing(s, o)
  }

  /** The step takes an open stream out of the map. */
  ghost predicate Evicts(s: Session, ev: Event)
    requires Possible(s, ev)
  {
    ev.RunTask? && TakesOut(s, ev.task).Some? && Open(s, TakesOut(s, ev.task).value)
  }

  // ---- Losing nobody ----

  lemma ClosingKept(s: Session, s': Session, o: nat)
    requires s.tasks <= s'.tasks && (s.rx.at.PeerRemoved? ==> s'.rx.at == s.rx.at)
    ensures Closing(s, o) ==> Closing(s', o)
  {
    if exists error :: CloseBySession(o, error) in s.tasks {
      var error :| CloseBySession(o, error) in s.tasks;
      assert CloseBySession(o, error) in s'.tasks;
    }
  }

  /** Tasks that close another stream, or none, do not matter to `o`. */
  lemma ClosingSame(s: Session, s': Session, o: nat)
    requires s'.rx.at == s.rx.at && (UndoOpen(o) in s.tasks <==> UndoOpen(o) in s'.tasks)
    requires forall error :: CloseBySession(o, error) in s.tasks <==> CloseBySession(o, error) in s'.tasks
    ensures Closing(s, o) <==> Closing(s', o)
  {
  }

  /** More tasks, or streams that moved forward, lose nobody. */
  lemma MoreAccounts(s: Session, s': Session, holes: set<nat>)
    requires AllBut(s, holes) && |s'.table.objs| == |s.table.objs| && Grows(s.table.objs, s'.table.objs)
    requires s.tasks <= s'.tasks && s'.table.streams == s.table.streams
    requires s.rx.at.PeerRemoved? ==> s'.rx.at == s.rx.at
    ensures AllBut(s', holes)
  {
    hide Closing;
    forall o | 0 <= o < |s'.table.objs| && o !in holes
      ensures Accounted(s', o)
    {
      assert Accounted(s, o) && GrowsOne(s.table.objs[o], s'.table.objs[o]);
      ClosingKept(s, s', o);
    }
  }

  lemma FillHole(s: Session, holes: set<nat>, o: nat)
    requires AllBut(s, holes + {o}) && (o < |s.table.objs| ==> Accounted(s, o))
    ensures AllBut(s, holes)
  {
    hide Accounted;
  }

  /** Removing an identifier affects only the stream that holds it. */
  lemma RemoveAccounts(s: Session, holes: set<nat>, sid: U32)
    requires AllBut(s, holes)
    ensures sid in s.table.streams ==> AllBut(s.Remove(sid), holes + {s.table.streams[sid]})
    ensures sid !in s.table.streams ==> AllBut(s.Remove(sid), holes)
  {
    hide Closing;
    var s' := s.Remove(sid);
    forall o | 0 <= o < |s.table.objs| && o !in holes && !(sid in s.table.streams && s.table.streams[sid] == o)
      ensures Accounted(s', o)
    {
      assert Accounted(s, o);
      ClosingKept(s, s', o);
    }
  }

  /** A stream taken out of the map is lost exactly if it was open. */
  lemma TakenOut(s: Session, s': Session, o: nat)
    requires AllBut(s', {o}) && o < |s.table.objs| <= |s'.table.objs| && !s'.table.Attached(o)
    requires s'.table.objs[o].Closed() == s.table.objs[o].Closed() && (Closing(s', o) <==> Closing(s, o))
    ensures AllAccounted(s') <==> !Open(s, o)
  {
    hide Closing;
    assert {} + {o} == {o};
    assert Open(s, o) <==> !Accounted(s', o);
    if !Open(s, o) {
      FillHole(s', {}, o);
    }
  }

  /** Taking a task off the list can only expose the stream it was about to close. */
  lemma TakeTask(s: Session, t: Task)
    requires AllAccounted(s) && t in s.tasks
    ensures AllBut(s.(tasks := s.tasks - multiset{t}), if t.UndoOpen? || t.CloseBySession? then {t.o} else {})
  {
    var s' := s.(tasks := s.tasks - multiset{t});
    forall o | 0 <= o < |s.table.objs| && !((t.UndoOpen? || t.CloseBySession?) && t.o == o)
      ensures Accounted(s', o)
    {
      assert Accounted(s, o);
      if exists error :: CloseBySession(o, error) in s.tasks {
        var error :| CloseBySession(o, error) in s.tasks;
        assert CloseBySession(o, error) in s'.tasks;
      }
    }
  }

  // ---- Calls and tasks ----

  lemma CallTasks(s: Session, call: Call)
    requires CallPossible(s, call)
    ensures s.tasks <= CallStep(s, call).tasks
  {
    hide Apply, Enabled;
  }

  lemma CallTable(s: Session, call: Call)
    requires CallPossible(s, call)
    ensures var s' := CallStep(s, call);
            |s'.table.objs| == |s.table.objs| && s'.table.streams == s.table.streams && s'.rx == s.rx
  {
    hide Apply, Enabled;
  }

  lemma CallAccounts(s: Session, call: Call)
    requires Sound(s) && AllAccounted(s) && CallPossible(s, call)
    ensures AllAccounted(CallStep(s, call))
  {
    hide Sound, Grows, CallStep, CallPossible, AllBut;
    CallKeeps(s, call);
    CallTasks(s, call);
    CallTable(s, call);
    MoreAccounts(s, CallStep(s, call), {});
  }

  /** A new stream pushes out the one that held its identifier. */
  lemma InsertAccounts(s: Session, s': Session, table: Table, sid: U32, born: nat, handed: bool)
    requires AllAccounted(s) && table.objs == s.table.objs && table.streams == s.table.streams
    requires s'.table == table.Insert(sid, born, handed)
    requires s.tasks <= s'.tasks && (s.rx.at.PeerRemoved? ==> s'.rx.at == s.rx.at)
    ensures AllBut(s', if sid in s.table.streams then {s.table.streams[sid]} else {})
  {
    hide Closing;
    forall o | 0 <= o < |s'.table.objs| && !(sid in s.table.streams && s.table.streams[sid] == o)
      ensures Accounted(s', o)
    {
      if o < |s.table.objs| {
        assert Accounted(s, o) && s'.table.objs[o] == s.table.objs[o];
        ClosingKept(s, s', o);
      }
    }
  }

  lemma OpenLockExactly(s: Session)
    requires AllAccounted(s) && MapOk(s.table.streams, s.table.objs)
    ensures AllAccounted(OpenTaskStep(s, OpenLock))
            <==> !(TakesOut(s, OpenLock).Some? && Open(s, TakesOut(s, OpenLock).value))
  {
    hide AllBut, Closing;
    var s' := OpenTaskStep(s, OpenLock);
    var sid := (s.table.nextId + 1) % 0x1_0000_0000;
    if s.table.closed || |s.table.streams| >= s.cap {
    } else if sid == 0 {
      GrowsRefl(s.table.objs);
      MoreAccounts(s, s', {});
    } else {
      var table := s.table.(nextId := sid, opens := s.table.opens + 1);
      InsertAccounts(s, s', table, sid, s.rx.Born(), false);
      if sid in s.table.streams {
        PushedOut(s, s', s.table.streams[sid]);
      }
    }
  }

  /** The two sections that only add tasks unrelated to closing. */
  lemma PushedOut(s: Session, s': Session, o: nat)
    requires AllBut(s', {o}) && o < |s.table.objs| <= |s'.table.objs| && !s'.table.Attached(o)
    requires s'.table.objs[o] == s.table.objs[o] && s'.rx.at == s.rx.at
    requires forall t :: t in s'.tasks && (t == UndoOpen(o) || (t.CloseBySession? && t.o == o)) ==> t in s.tasks
    requires s.tasks <= s'.tasks
    ensures AllAccounted(s') <==> !Open(s, o)
  {
    ClosingSame(s, s', o);
    TakenOut(s, s', o);
  }

  lemma UndoExactly(s: Session, o: nat)
    requires o < |s.table.objs| && AllBut(s, {o}) && MapOk(s.table.streams, s.table.objs)
    ensures AllAccounted(OpenTaskStep(s, UndoOpen(o)))
            <==> !(TakesOut(s, UndoOpen(o)).Some? && Open(s, TakesOut(s, UndoOpen(o)).value))
  {
    hide AllBut, Ascii, GrowsOne, Closing;
    var sid := s.table.objs[o].sid;
    var s1, s' := s.Remove(sid), OpenTaskStep(s, UndoOpen(o));
    RemoveAccounts(s, {o}, sid);
    GrowsRefl(s.table.objs);
    UndoneIsClosing(s, o);
    if sid in s.table.streams && s.table.streams[sid] != o {
      var p := s.table.streams[sid];
      MoreAccounts(s1, s', {o} + {p});
      assert {o} + {p} == {p} + {o};
      FillHole(s', {p}, o);
      PushedOut(s, s', p);
    } else {
      assert {o} + {o} == {o} && {} + {o} == {o};
      MoreAccounts(s1, s', {o});
      FillHole(s', {}, o);
    }
  }

  lemma UndoneIsClosing(s: Session, o: nat)
    requires o < |s.table.objs|
    ensures Closing(OpenTaskStep(s, UndoOpen(o)), o)
  {
    assert CloseBySession(o, Some(Ascii("Session closed"))) in OpenTaskStep(s, UndoOpen(o)).tasks;
  }

  lemma RemoveSelfExactly(s: Session, o: nat)
    requires o < |s.table.objs| && AllAccounted(s) && MapOk(s.table.streams, s.table.objs)
    ensures AllAccounted(CloseTaskStep(s, RemoveSelf(o)))
            <==> !(TakesOut(s, RemoveSelf(o)).Some? && Open(s, TakesOut(s, RemoveSelf(o)).value))
  {
    hide AllBut, GrowsOne, Closing;
    var sid := s.table.objs[o].sid;
    var s1, s' := s.Remove(sid), CloseTaskStep(s, RemoveSelf(o));
    RemoveAccounts(s, {}, sid);
    GrowsRefl(s.table.objs);
    if sid in s.table.streams {
      var p := s.table.streams[sid];
      assert {} + {p} == {p};
      MoreAccounts(s1, s', {p});
      PushedOut(s, s', p);
    } else {
      MoreAccounts(s1, s', {});
    }
  }

  lemma DrainAccounts(s: Session)
    requires AllAccounted(s)
    ensures AllAccounted(CloseTaskStep(s, Drain))
  {
    var s' := CloseTaskStep(s, Drain);
    forall o | 0 <= o < |s'.table.objs|
      ensures Accounted(s', o)
    {
      assert Accounted(s, o);
      ClosingKept(s, s', o);
      if s.table.Attached(o) {
        var sid := s.table.objs[o].sid;
        assert CloseBySession(s.table.streams[sid], None) in Doomed(s.table.streams);
        assert CloseBySession(o, None) in s'.tasks;
      }
    }
  }

  /** Tasks that take nobody out of the map. */
  lemma OtherTasks(s: Session, t: Task)
    requires Sound(s) && AllBut(s, if t.CloseBySession? then {t.o} else {}) && TaskOk(s.table.objs, t)
    requires !t.OpenLock? && !t.UndoOpen? && !t.RemoveSelf? && !t.Drain?
    ensures AllAccounted(if IsOpenTask(t) then OpenTaskStep(s, t) else CloseTaskStep(s, t))
  {
    hide AllBut, Sound, Grows, Apply, Closing;
    if IsOpenTask(t) {
      OpenTaskKeeps(s, t);
      MoreAccounts(s, OpenTaskStep(s, t), {});
    } else {
      CloseTaskKeeps(s, t);
      if t.CloseBySession? {
        MoreAccounts(s, CloseTaskStep(s, t), {t.o});
        assert {} + {t.o} == {t.o};
        FillHole(CloseTaskStep(s, t), {}, t.o);
      } else {
        MoreAccounts(s, CloseTaskStep(s, t), {});
      }
    }
  }

  /** Open streams of other tasks look the same once `t` is off the list. */
  lemma OpenSame(s: Session, t: Task, o: nat)
    requires t in s.tasks && !t.CloseBySession? && t != UndoOpen(o)
    ensures Open(s, o) <==> Open(s.(tasks := s.tasks - multiset{t}), o)
  {
    ClosingSame(s, s.(tasks := s.tasks - multiset{t}), o);
  }

  lemma TaskExactly(digest: Text -> Text, s: Session, t: Task)
    requires Sound(s) && AllAccounted(s) && Possible(s, RunTask(t))
    ensures AllAccounted(Step(digest, s, RunTask(t))) <==> !Evicts(s, RunTask(t))
  {
    hide AllBut, Sound, Open, OpenTaskStep, CloseTaskStep;
    var s' := s.(tasks := s.tasks - multiset{t});
    TaskFacts(s, t);
    SameKeeps(s, s');
    MapFacts(s);
    TakeTask(s, t);
    if TakesOut(s, t).Some? {
      OpenSame(s, t, TakesOut(s, t).value);
    }
    match t
    case OpenLock => OpenLockExactly(s');
    case UndoOpen(o) => UndoExactly(s', o);
    case RemoveSelf(o) => RemoveSelfExactly(s', o);
    case Drain => DrainAccounts(s');
    case _ => OtherTasks(s', t);
  }

  // ---- The receive loop ----

  lemma PeerClosesAccounts(s: Session, sid: U32, error: Option<Error>)
    requires s.rx.at.Next? && AllAccounted(s)
    ensures AllAccounted(PeerCloses(s, sid, error))
  {
    hide AllBut, GrowsOne;
    GrowsRefl(s.table.objs);
    RemoveAccounts(s, {}, sid);
    if sid in s.table.streams {
      var o := s.table.streams[sid];
      assert {} + {o} == {o};
      MoreAccounts(s.Remove(sid), PeerCloses(s, sid, error), {o});
      FillHole(PeerCloses(s, sid, error), {}, o);
    }
  }

  lemma ActionAccounts(s: Session, action: Action, acked: bool)
    requires Sound(s) && s.rx.at.Next? && AllAccounted(s) && (action.PushStreamData? ==> action.data != [])
    ensures AllAccounted(ActionStep(s, action, acked))
  {
    hide AllBut, Sound, Grows, Ascii;
    match action
    case CloseLocalStream(sid) => PeerClosesAccounts(s, sid, None);
    case CloseRemoteStream(sid, message) => PeerClosesAccounts(s, sid, Some(Ascii("remote: ") + message));
    case _ =>
      ActionKeeps(s, action, acked);
      MoreAccounts(s, ActionStep(s, action, acked), {});
  }

  lemma PushTable(s: Session, at: At)
    requires AtInRange(at, |s.table.objs|) && IsPush(at)
    ensures var s' := PushStep(s, at);
            |s'.table.objs| == |s.table.objs| && s'.table.streams == s.table.streams && s'.tasks == s.tasks
  {
    hide Apply, Accepts;
  }

  lemma LifeTable(s: Session, at: At)
    requires AtInRange(at, |s.table.objs|) && (at.PeerRemoved? || at.PeerFinish?)
    ensures var s' := LifeStep(s, at);
            && |s'.table.objs| == |s.table.objs| && s'.table.streams == s.table.streams && s'.tasks == s.tasks
            && (at.PeerRemoved? ==> s'.table.objs[at.o].Closed())
  {
    hide Apply;
  }

  lemma CreatingAccounts(s: Session)
    requires AllAccounted(s) && s.rx.at.Creating?
    ensures AllAccounted(LifeStep(s, s.rx.at))
  {
    hide AllBut;
    var s' := LifeStep(s, s.rx.at);
    if s.rx.at.sid in s.table.streams {
      GrowsRefl(s.table.objs);
      MoreAccounts(s, s', {});
    } else {
      InsertAccounts(s, s', s.table, s.rx.at.sid, s.rx.Born(), true);
    }
  }

  lemma ContinueAccounts(digest: Text -> Text, s: Session)
    requires Sound(s) && AllAccounted(s) && ProgressPossible(s, Continue)
    ensures AllAccounted(ReceiveStep(digest, s, Continue))
  {
    hide AllBut, Sound, Grows, PushStep, LifeStep;
    var s' := ReceiveStep(digest, s, Continue);
    SessionSafety.ReceiveKeeps(digest, s, Continue);
    if s.rx.at.Creating? {
      CreatingAccounts(s);
    } else if IsPush(s.rx.at) {
      PushTable(s, s.rx.at);
      MoreAccounts(s, s', {});
    } else {
      LifeTable(s, s.rx.at);
      if s.rx.at.PeerRemoved? {
        PeerMarkAccounts(s, s.rx.at.o, s');
      } else {
        MoreAccounts(s, s', {});
      }
    }
  }

  /** The receive loop leaves a removed stream closed behind. */
  lemma PeerMarkAccounts(s: Session, o: nat, s': Session)
    requires AllAccounted(s) && s.rx.at.PeerRemoved? && s.rx.at.o == o < |s.table.objs|
    requires |s'.table.objs| == |s.table.objs| && Grows(s.table.objs, s'.table.objs)
    requires s'.tasks == s.tasks && s'.table.streams == s.table.streams && s'.table.objs[o].Closed()
    ensures AllAccounted(s')
  {
    forall p | 0 <= p < |s'.table.objs|
      ensures Accounted(s', p)
    {
      assert Accounted(s, p) && GrowsOne(s.table.objs[p], s'.table.objs[p]);
    }
  }

  lemma ReceiveAccounts(digest: Text -> Text, s: Session, progress: Progress)
    requires Sound(s) && AllAccounted(s) && ProgressPossible(s, progress)
    ensures AllAccounted(ReceiveStep(digest, s, progress))
  {
    hide AllBut, Sound, GrowsOne, ActionStep, HandleFrame, PushStep, LifeStep;
    match progress
    case Act(acked) =>
      var s' := s.(rx := s.rx.(todo := s.rx.todo[1..]));
      TodoKeeps(s);
      GrowsRefl(s.table.objs);
      MoreAccounts(s, s', {});
      ActionAccounts(s', s.rx.todo[0], acked);
    case Continue => ContinueAccounts(digest, s);
    case _ =>
      GrowsRefl(s.table.objs);
      MoreAccounts(s, ReceiveStep(digest, s, progress), {});
  }

  // ---- Exactly when a stream is lost ----

  /** A step loses a stream if and only if it takes an open one out of the map. */
  lemma LostExactlyWhen(digest: Text -> Text, s: Session, ev: Event)
    requires Sound(s) && AllAccounted(s) && Possible(s, ev)
    ensures AllAccounted(Step(digest, s, ev)) <==> !Evicts(s, ev)
  {
    hide AllBut, Sound, Open, CallStep, OpenTaskStep, CloseTaskStep, ReceiveStep;
    match ev
    case Api(call) => CallAccounts(s, call);
    case RunTask(t) => TaskExactly(digest, s, t);
    case Receive(progress) => ReceiveAccounts(digest, s, progress);
  }

  /** No step of the run takes an open stream out of the map. */
  ghost predicate NoEviction(digest: Text -> Text, init: Session, events: seq<Event>)
    requires Run(digest, init, events).Some?
  {
    events == [] ||
    (var front := events[..|events| - 1];
     NoEviction(digest, init, front) && !Evicts(Run(digest, init, front).value, events[|events| - 1]))
  }

  /** Every stream is accounted for all along the run. */
  ghost predicate AlwaysAccounted(digest: Text -> Text, init: Session, events: seq<Event>)
    requires Run(digest, init, events).Some?
  {
    && AllAccounted(Run(digest, init, events).value)
    && (events == [] || AlwaysAccounted(digest, init, events[..|events| - 1]))
  }

  /** Along a run every stream stays accounted for if and only if no step takes an open one out of
      the map. */
  lemma {:induction false} RunAccounts(digest: Text -> Text, init: Session, events: seq<Event>)
    requires Sound(init) && AllAccounted(init) && Run(digest, init, events).Some?
    ensures AlwaysAccounted(digest, init, events) <==> NoEviction(digest, init, events)
  {
    hide Step, Possible, Sound, AllBut, Evicts;
    if events != [] {
      var front, last := events[..|events| - 1], events[|events| - 1];
      RunsSound(digest, init, front);
      RunAccounts(digest, init, front);
      if NoEviction(digest, init, front) {
        LostExactlyWhen(digest, Run(digest, init, front).value, last);
      }
    }
  }

  // ---- Distinct identifiers ----

  /** No two streams ever had the same identifier. */
  ghost predicate Distinct(objs: seq<Stream>)
  {
    forall i, j :: 0 <= i < |objs| && 0 <= j < |objs| && i != j ==> objs[i].sid != objs[j].sid
  }

  lemma DistinctBefore(a: seq<Stream>, b: seq<Stream>)
    requires Grows(a, b) && Distinct(b)
    ensures Distinct(a)
  {
    forall i, j | 0 <= i < |a| && 0 <= j < |a| && i != j
      ensures a[i].sid != a[j].sid
    {
      assert GrowsOne(a[i], b[i]) && GrowsOne(a[j], b[j]);
    }
  }

  lemma IdsDistinct(table: Table)
    requires IdsInOrder(table) && table.opens < IDS
    ensures Distinct(table.objs)
  {
  }

  lemma DistinctKeeps(digest: Text -> Text, s: Session, ev: Event)
    requires Sound(s) && Possible(s, ev) && Distinct(Step(digest, s, ev).table.objs)
    ensures !Evicts(s, ev) && Distinct(s.table.objs)
  {
    hide Grows, Sound, CallStep, OpenTaskStep, CloseTaskStep, ReceiveStep, Closing;
    StepKeeps(digest, s, ev);
    DistinctBefore(s.table.objs, Step(digest, s, ev).table.objs);
    MapFacts(s);
    if ev.RunTask? && TakesOut(s, ev.task).Some? {
      TaskFacts(s, ev.task);
      if ev.task.OpenLock? {
        FreshId(digest, s);
      }
    }
  }

  lemma FreshId(digest: Text -> Text, s: Session)
    requires Possible(s, RunTask(OpenLock)) && MapOk(s.table.streams, s.table.objs)
    requires Distinct(Step(digest, s, RunTask(OpenLock)).table.objs)
    ensures TakesOut(s, OpenLock).None?
  {
    var s', n := Step(digest, s, RunTask(OpenLock)), |s.table.objs|;
    forall o | 0 <= o < n < |s'.table.objs|
      ensures s.table.objs[o].sid != s'.table.objs[n].sid
    {
      assert s'.table.objs[o].sid != s'.table.objs[n].sid;
    }
  }

  /** As long as no identifier is used twice, nobody is lost. */
  lemma {:induction false} DistinctRuns(digest: Text -> Text, init: Session, events: seq<Event>)
    requires Sound(init) && Run(digest, init, events).Some? && Distinct(Run(digest, init, events).value.table.objs)
    ensures NoEviction(digest, init, events)
  {
    hide Step, Possible, Sound, Distinct, Evicts;
    if events != [] {
      var front := events[..|events| - 1];
      RunsSound(digest, init, front);
      DistinctKeeps(digest, Run(digest, init, front).value, events[|events| - 1]);
      DistinctRuns(digest, init, front);
    }
  }

  /** A client that drew fewer than 2^32 identifiers has lost nobody. */
  lemma IdsLoseNobody(digest: Text -> Text, cap: nat, engine: Engine.State, order: seq<(Text, Text)>, events: seq<Event>)
    requires Run(digest, NewSession(true, cap, engine, order), events).Some?
    requires Run(digest, NewSession(true, cap, engine, order), events).value.table.opens < IDS
    ensures NoEviction(digest, NewSession(true, cap, engine, order), events)
  {
    var init := NewSession(true, cap, engine, order);
    InitiallySound(true, cap, engine, order);
    ClientStarts(cap, engine, order);
    ClientRuns(digest, init, events);
    hide Run, IdsInOrder, Distinct, Sound, NoIncoming, NewSession;
    IdsDistinct(Run(digest, init, events).value.table);
    DistinctRuns(digest, init, events);
  }

  // ---- Termination ----

  /** Termination is final: in every run of a client session, once a termination has drained the
      map it stays empty; and if no step took an open stream out of the map, every stream ever opened
      is then closed or has its close pending. */
  lemma TerminateIsFinal(digest: Text -> Text, cap: nat, engine: Engine.State, order: seq<(Text, Text)>,
                         events: seq<Event>)
    requires Run(digest, NewSession(true, cap, engine, order), events).Some?
    ensures var s := Run(digest, NewSession(true, cap, engine, order), events).value;
            && (s.table.drained ==> s.table.streams == map[])
            && (s.table.drained && NoEviction(digest, NewSession(true, cap, engine, order), events) ==>
                  forall o :: 0 <= o < |s.table.objs| ==> !Open(s, o))
  {
    var init := NewSession(true, cap, engine, order);
    var s := Run(digest, init, events).value;
    InitiallySound(true, cap, engine, order);
    ClientStarts(cap, engine, order);
    ClientRuns(digest, init, events);
    RunAccounts(digest, init, events);
    hide Run, IdsInOrder, Sound, NoIncoming, Closing, NoEviction;
    forall o | 0 <= o < |s.table.objs| && s.table.drained && NoEviction(digest, init, events)
      ensures !Open(s, o)
    {
      assert Accounted(s, o);
    }
  }

  lemma UndoCloses(digest: Text -> Text, s: Session, o: nat)
    requires Possible(s, RunTask(UndoOpen(o)))
    ensures var s' := Step(digest, s, RunTask(UndoOpen(o)));
            |s'.table.objs| == |s.table.objs| && CloseBySession(o, Some(Ascii("Session closed"))) in s'.tasks
  {
    hide Ascii;
  }

  lemma CloseStepCloses(digest: Text -> Text, s: Session, o: nat, error: Option<Error>)
    requires Possible(s, RunTask(CloseBySession(o, error)))
    ensures var s' := Step(digest, s, RunTask(CloseBySession(o, error)));
            o < |s'.table.objs| && s'.table.objs[o].Closed()
  {
  }

  lemma PeerStepCloses(digest: Text -> Text, s: Session)
    requires s.rx.at.PeerRemoved? && Possible(s, Event.Receive(Continue))
    ensures var s' := Step(digest, s, Event.Receive(Continue));
            s.rx.at.o < |s'.table.objs| && s'.table.objs[s.rx.at.o].Closed()
  {
  }

  /** A pending close can always run, and two steps of its own are enough to close the stream. */
  lemma PendingCloses(digest: Text -> Text, s: Session, o: nat) returns (events: seq<Event>)
    requires o < |s.table.objs| && Closing(s, o)
    ensures |events| <= 2 && Run(digest, s, events).Some?
    ensures o < |Run(digest, s, events).value.table.objs| && Run(digest, s, events).value.table.objs[o].Closed()
  {
    hide Step, Run, Ascii;
    if s.rx.at.PeerRemoved? && s.rx.at.o == o {
      events := [Event.Receive(Continue)];
      RunOne(digest, s, events[0]);
      PeerStepCloses(digest, s);
    } else if exists error :: CloseBySession(o, error) in s.tasks {
      var error :| CloseBySession(o, error) in s.tasks;
      events := [RunTask(CloseBySession(o, error))];
      RunOne(digest, s, events[0]);
      CloseStepCloses(digest, s, o, error);
    } else {
      var error := Some(Ascii("Session closed"));
      var s' := Step(digest, s, RunTask(UndoOpen(o)));
      UndoCloses(digest, s, o);
      events := [RunTask(UndoOpen(o)), RunTask(CloseBySession(o, error))];
      RunTwo(digest, s, events[0], events[1]);
      CloseStepCloses(digest, s', o, error);
    }
  }
}
