/** The idle flag over every interleaving: a wake-up is never lost, and exactly when the flag can
    be stale. */
module SessionIdle {
  import opened Options
  import opened Texts
  import opened Engine
  import opened Pipes
  import opened Sessions

  // ---- No lost idle wake-up ----

  /** With no stream open and nobody about to notify, the idle flag is up. */
  ghost predicate IdleKnown(s: Session)
  {
    s.table.streams == map[] && NotifyIdle !in s.tasks ==> s.table.idle
  }

  lemma IdleOpenTask(s: Session, t: Task)
    requires IdleKnown(s) && IsOpenTask(t) && TaskInRange(t, |s.table.objs|)
    ensures IdleKnown(OpenTaskStep(s, t))
  {
    hide Ascii;
  }

  lemma IdleCloseTask(s: Session, t: Task)
    requires (IdleKnown(s) || t.NotifyIdle?) && !IsOpenTask(t) && TaskInRange(t, |s.table.objs|)
    ensures IdleKnown(CloseTaskStep(s, t))
  {
    hide Apply;
  }

  lemma IdleAction(s: Session, action: Action, acked: bool)
    requires IdleKnown(s)
    ensures IdleKnown(ActionStep(s, action, acked))
  {
    hide Ascii;
  }

  lemma IdleContinue(s: Session, at: At)
    requires IdleKnown(s) && AtInRange(at, |s.table.objs|) && !at.Next? && !at.Stopped?
    ensures IdleKnown(if IsPush(at) then PushStep(s, at) else LifeStep(s, at))
  {
    hide Apply;
  }

  lemma IdleCall(s: Session, call: Call)
    requires IdleKnown(s) && CallPossible(s, call)
    ensures IdleKnown(CallStep(s, call))
  {
    hide Apply;
  }

  lemma IdleStep(digest: Text -> Text, s: Session, ev: Event)
    requires IdleKnown(s) && Possible(s, ev)
    ensures IdleKnown(Step(digest, s, ev))
  {
    hide CallStep, OpenTaskStep, CloseTaskStep, ActionStep, PushStep, LifeStep, HandleFrame;
    match ev
    case Api(call) => IdleCall(s, call);
    case RunTask(t) =>
      var s' := s.(tasks := s.tasks - multiset{t});
      assert t != NotifyIdle ==> IdleKnown(s');
      if IsOpenTask(t) {
        IdleOpenTask(s', t);
      } else {
        IdleCloseTask(s', t);
      }
    case Receive(progress) =>
      match progress
      case Act(acked) => IdleAction(s.(rx := s.rx.(todo := s.rx.todo[1..])), s.rx.todo[0], acked);
      case Continue => IdleContinue(s, s.rx.at);
      case _ =>
  }

  /** Under every interleaving of opens, closes, peer FINs and terminations, a session without
      streams that nobody still has to announce is marked idle. */
  lemma {:induction false} NoLostWakeUp(digest: Text -> Text, init: Session, events: seq<Event>)
    requires IdleKnown(init) && Run(digest, init, events).Some?
    ensures IdleKnown(Run(digest, init, events).value)
  {
    hide Step, IdleKnown;
    if events != [] {
      NoLostWakeUp(digest, init, events[..|events| - 1]);
      IdleStep(digest, Run(digest, init, events[..|events| - 1]).value, events[|events| - 1]);
    }
  }

  // ---- The converse ----

  /** The flag promises no more than the map holds. */
  ghost predicate IdleTrue(s: Session)
  {
    s.table.idle ==> s.table.streams == map[]
  }

  lemma TrueOpenTask(s: Session, t: Task)
    requires IdleTrue(s) && IsOpenTask(t) && TaskInRange(t, |s.table.objs|)
    ensures IdleTrue(OpenTaskStep(s, t))
  {
    hide Ascii;
  }

  lemma TrueCloseTask(s: Session, t: Task)
    requires IdleTrue(s) && !IsOpenTask(t) && TaskInRange(t, |s.table.objs|)
    ensures IdleTrue(CloseTaskStep(s, t)) <==> !(t.NotifyIdle? && s.table.streams != map[])
  {
    hide Apply;
  }

  lemma TrueAction(s: Session, action: Action, acked: bool)
    requires IdleTrue(s)
    ensures IdleTrue(ActionStep(s, action, acked))
  {
    hide Ascii;
  }

  lemma TrueContinue(s: Session, at: At)
    requires IdleTrue(s) && AtInRange(at, |s.table.objs|) && !at.Next? && !at.Stopped?
    ensures IdleTrue(if IsPush(at) then PushStep(s, at) else LifeStep(s, at))
  {
    hide Apply;
  }

  lemma TrueCall(s: Session, call: Call)
    requires IdleTrue(s) && CallPossible(s, call)
    ensures IdleTrue(CallStep(s, call))
  {
    hide Apply;
  }

  /** Which step makes the flag stale: exactly a notification that runs after a stream was opened
      since its remover left the lock. */
  lemma StaleExactlyWhen(digest: Text -> Text, s: Session, ev: Event)
    requires IdleTrue(s) && Possible(s, ev)
    ensures IdleTrue(Step(digest, s, ev)) <==> !(ev == RunTask(NotifyIdle) && s.table.streams != map[])
  {
    hide CallStep, OpenTaskStep, CloseTaskStep, ActionStep, PushStep, LifeStep, HandleFrame;
    match ev
    case Api(call) => TrueCall(s, call);
    case RunTask(t) =>
      var s' := s.(tasks := s.tasks - multiset{t});
      if IsOpenTask(t) {
        TrueOpenTask(s', t);
      } else {
        TrueCloseTask(s', t);
      }
    case Receive(progress) =>
      match progress
      case Act(acked) => TrueAction(s.(rx := s.rx.(todo := s.rx.todo[1..])), s.rx.todo[0], acked);
      case Continue => TrueContinue(s, s.rx.at);
      case _ =>
  }

  /** The session as an open leaves it. */
  function Opened(s: Session): Session
  {
    var sid := (s.table.nextId + 1) % 0x1_0000_0000;
    s.(table := s.table.(nextId := sid, opens := s.table.opens + 1).Insert(sid, s.rx.Born(), false))
     .Spawn(multiset{SendSyn(|s.table.objs|)})
  }

  lemma OpenCall(digest: Text -> Text, s: Session)
    requires s.isClient && !s.Terminated()
    ensures Possible(s, Api(OpenStream)) && Step(digest, s, Api(OpenStream)) == s.Spawn(multiset{OpenLock})
  {
  }

  lemma OpenSection(digest: Text -> Text, s: Session)
    requires !s.table.closed && s.table.streams == map[] && s.cap > 0 && s.table.nextId < 0xffff_ffff
    ensures Possible(s.Spawn(multiset{OpenLock}), RunTask(OpenLock))
    ensures Step(digest, s.Spawn(multiset{OpenLock}), RunTask(OpenLock)) == Opened(s)
  {
    hide OpenTaskStep, Opened;
    var s1 := s.Spawn(multiset{OpenLock});
    assert s1.tasks - multiset{OpenLock} == s.tasks;
    assert s1.(tasks := s1.tasks - multiset{OpenLock}) == s;
    OpenStepOpens(s);
  }

  lemma OpenStepOpens(s: Session)
    requires !s.table.closed && s.table.streams == map[] && s.cap > 0 && s.table.nextId < 0xffff_ffff
    ensures OpenTaskStep(s, OpenLock) == Opened(s)
  {
    hide Ascii;
  }

  lemma OpenRun(digest: Text -> Text, s: Session)
    requires s.isClient && !s.Terminated() && s.table.streams == map[] && s.cap > 0 && s.table.nextId < 0xffff_ffff
    ensures Run(digest, s, [Api(OpenStream), RunTask(OpenLock)]) == Some(Opened(s))
  {
    hide Run, Step, Possible, Opened;
    OpenCall(digest, s);
    OpenSection(digest, s);
    RunTwo(digest, s, Api(OpenStream), RunTask(OpenLock));
  }

  /** What stays the same while a stream is opened and closed again. */
  ghost predicate SameEnd(s: Session, s': Session)
  {
    && s'.isClient == s.isClient && s'.cap == s.cap && s'.table.nextId == s.table.nextId
    && s'.table.closed == s.table.closed && s'.channel.gone == s.channel.gone
  }

  /** Stream `o` is the only one, is open, and its opener has it or is about to. */
  ghost predicate OnlyOne(s: Session, o: nat)
  {
    o < |s.table.objs| && !s.table.objs[o].Closed() && s.table.streams.Keys == {s.table.objs[o].sid}
  }

  lemma SynSection(digest: Text -> Text, s: Session, o: nat)
    requires OnlyOne(s, o) && SendSyn(o) in s.tasks && !s.channel.gone
    ensures Possible(s, RunTask(SendSyn(o)))
    ensures var s' := Step(digest, s, RunTask(SendSyn(o)));
            SameEnd(s, s') && OnlyOne(s', o) && s'.table.objs[o].handed
  {
  }

  lemma CloseCall(digest: Text -> Text, s: Session, o: nat)
    requires OnlyOne(s, o) && s.table.objs[o].handed
    ensures Possible(s, Api(CloseStream(o)))
    ensures var s' := Step(digest, s, Api(CloseStream(o)));
            && SameEnd(s, s') && o < |s'.table.objs| && RemoveSelf(o) in s'.tasks
            && s'.table.streams.Keys == {s'.table.objs[o].sid}
  {
  }

  lemma RemoveSection(digest: Text -> Text, s: Session, o: nat)
    requires o < |s.table.objs| && RemoveSelf(o) in s.tasks && s.table.streams.Keys == {s.table.objs[o].sid}
    ensures Possible(s, RunTask(RemoveSelf(o)))
    ensures var s' := Step(digest, s, RunTask(RemoveSelf(o)));
            SameEnd(s, s') && s'.table.streams == map[] && NotifyIdle in s'.tasks
  {
    assert s.table.streams - {s.table.objs[o].sid} == map[];
  }

  /** The stream an open left behind is closed again at once. */
  lemma CloseRun(digest: Text -> Text, s: Session, o: nat) returns (events: seq<Event>)
    requires OnlyOne(s, o) && SendSyn(o) in s.tasks && !s.channel.gone
    ensures Run(digest, s, events).Some?
    ensures var s' := Run(digest, s, events).value;
            SameEnd(s, s') && s'.table.streams == map[] && NotifyIdle in s'.tasks
  {
    hide Run, Step, Possible, OnlyOne;
    SynSection(digest, s, o);
    var s1 := Step(digest, s, RunTask(SendSyn(o)));
    CloseCall(digest, s1, o);
    var s2 := Step(digest, s1, Api(CloseStream(o)));
    RemoveSection(digest, s2, o);
    RunTwo(digest, s, RunTask(SendSyn(o)), Api(CloseStream(o)));
    RunOne(digest, s2, RunTask(RemoveSelf(o)));
    events := [RunTask(SendSyn(o)), Api(CloseStream(o))] + [RunTask(RemoveSelf(o))];
    RunConcat(digest, s, [RunTask(SendSyn(o)), Api(CloseStream(o))], [RunTask(RemoveSelf(o))]);
  }

  lemma OpenedFacts(s: Session)
    requires s.table.streams == map[]
    ensures var s' := Opened(s);
            && OnlyOne(s', |s.table.objs|) && SendSyn(|s.table.objs|) in s'.tasks && s.tasks <= s'.tasks
            && s'.isClient == s.isClient && s'.cap == s.cap && s'.channel == s.channel
            && s'.table.closed == s.table.closed && s'.table.nextId == (s.table.nextId + 1) % 0x1_0000_0000
  {
  }

  lemma NotifySection(digest: Text -> Text, s: Session)
    requires NotifyIdle in s.tasks && s.table.streams != map[]
    ensures Possible(s, RunTask(NotifyIdle)) && !IdleTrue(Step(digest, s, RunTask(NotifyIdle)))
  {
  }

  /** The flag of a fresh client session can become stale: a stream is open while the flag is up,
      which is why a waiter has to look again. */
  lemma IdleFlagMayBeStale(digest: Text -> Text, cap: nat, engine: Engine.State, order: seq<(Text, Text)>)
      returns (events: seq<Event>)
    requires cap > 0
    ensures Run(digest, NewSession(true, cap, engine, order), events).Some?
    ensures !IdleTrue(Run(digest, NewSession(true, cap, engine, order), events).value)
  {
    var init := NewSession(true, cap, engine, order);
    hide Run, Step, Possible, Opened, IdleTrue;
    var open := [Api(OpenStream), RunTask(OpenLock)];
    OpenRun(digest, init);
    OpenedFacts(init);
    var close := CloseRun(digest, Opened(init), 0);
    var s2 := Run(digest, Opened(init), close).value;
    OpenRun(digest, s2);
    OpenedFacts(s2);
    NotifySection(digest, Opened(s2));
    RunOne(digest, Opened(s2), RunTask(NotifyIdle));
    RunConcat(digest, init, open, close);
    RunConcat(digest, init, open + close, open);
    RunConcat(digest, init, open + close + open, [RunTask(NotifyIdle)]);
    events := open + close + open + [RunTask(NotifyIdle)];
  }
}
