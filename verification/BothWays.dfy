/** The way back: what a client reads is what the server wrote. The client's streams exist before
    the server can name them, which is a matter of time, so the two ends run together here. */
module BothWays {
  import opened Bytes
  import opened Options
  import opened Texts
  import opened Frames
  import opened Engine
  import opened Pipes
  import opened Sessions
  import opened SessionSafety
  import opened SessionLifecycle
  import opened SessionReceive
  import opened SessionDelivery
  import opened SessionOutbox
  import opened SessionServer
  import opened SessionEnds
  import opened SessionReplies
  import opened SessionTermination
  import opened SessionLogs
  import opened SessionAnswers
  import opened EndToEnd
  import WriterRuns

  // ---- The two ends together ----

  datatype Joint = Joint(client: Session, server: Session)

  datatype JointEvent = AtClient(event: Event) | AtServer(event: Event)

  function JointStep(digest: Text -> Text, j: Joint, ev: JointEvent): Option<Joint>
  {
    match ev
    case AtClient(e) => if Possible(j.client, e) then Some(j.(client := Step(digest, j.client, e))) else None
    case AtServer(e) => if Possible(j.server, e) then Some(j.(server := Step(digest, j.server, e))) else None
  }

  /** What each end has received is a prefix of what the other end's writer put on the wire. */
  ghost predicate Linked(j: Joint)
  {
    && (exists ops :: Connected(j.client, ops, j.server))
    && (exists ops :: Connected(j.server, ops, j.client))
  }

  /** A run of both ends, linked all the time. */
  ghost function JointRun(digest: Text -> Text, init: Joint, events: seq<JointEvent>): Option<Joint>
  {
    if events == [] then if Linked(init) then Some(init) else None
    else
      match JointRun(digest, init, events[..|events| - 1])
      case None => None
      case Some(j) =>
        match JointStep(digest, j, events[|events| - 1])
        case None => None
        case Some(j') => if Linked(j') then Some(j') else None
  }

  ghost function NewJoint(caps: (nat, nat), client: Engine.State, order: seq<(Text, Text)>, server: Engine.State): Joint
  {
    Joint(NewSession(true, caps.0, client, order), NewSession(false, caps.1, server, []))
  }

  // ---- Names in the client's past ----

  /** No frame handled before a client stream was born names it. */
  ghost predicate FreshBorn(client: Session)
  {
    forall o :: 0 <= o < |client.table.objs| ==>
      var x := client.table.objs[o];
      x.born <= |client.rx.handled| && !Mentions(client.rx.handled[..x.born], x.sid)
  }

  /** Only streams the client has are named in what it has handled. */
  ghost predicate NamesKnown(client: Session)
  {
    forall sid: U32 :: Mentions(client.rx.handled, sid) ==> 1 <= sid <= |client.table.objs|
  }

  lemma HandledOnward(digest: Text -> Text, s: Session, ev: Event)
    requires Possible(s, ev)
    ensures s.rx.handled <= Step(digest, s, ev).rx.handled
    ensures ev.Receive? ==> Step(digest, s, ev).table.opens == s.table.opens
    ensures !ev.Receive? ==> Step(digest, s, ev).rx == s.rx
  {
    hide CallStep, OpenTaskStep, CloseTaskStep, HandleFrame, ActionStep, PushStep, LifeStep;
    if !ev.Receive? {
      OutsideRx(digest, s, ev);
      return;
    }
    match ev.progress
    case TakeFrame => OtherFrame(digest, s.rx, s.isClient, Decode(s.rx.pending).value); return;
    case Act(acked) =>
      ReceiveHandled(digest, s, ev.progress);
      ActionOpens(s.(rx := s.rx.(todo := s.rx.todo[1..])), s.rx.todo[0], acked);
      return;
    case Continue =>
      ReceiveHandled(digest, s, ev.progress);
      ContinueOpens(s, s.rx.at);
      return;
    case _ => return;
  }

  lemma ActionOpens(s: Session, action: Action, acked: bool)
    ensures ActionStep(s, action, acked).table.opens == s.table.opens
  {
    hide Ascii;
  }

  lemma ContinueOpens(s: Session, at: At)
    requires AtInRange(at, |s.table.objs|) && !at.Next? && !at.Stopped?
    ensures (if IsPush(at) then PushStep(s, at) else LifeStep(s, at)).table.opens == s.table.opens
  {
    hide Apply, Accepts;
  }

  lemma ClientIds(client: Session)
    requires ClientOk(client) && client.table.opens < IDS
    ensures |client.table.objs| == client.table.opens
    ensures forall o :: 0 <= o < |client.table.objs| ==> client.table.objs[o].sid == o + 1
  {
    hide NoIncoming, DrainedForGood;
  }

  lemma BornBefore(s: Session, o: nat)
    requires AllDelivered(s) && o < |s.table.objs|
    ensures s.table.objs[o].born <= |s.rx.handled|
  {
    OneOf(s, o);
    hide DataFor, EndedFor, InFlight, CloseNext;
  }

  lemma FreshStep(digest: Text -> Text, s: Session, ev: Event)
    requires Sound(s) && ClientOk(s) && FreshBorn(s) && NamesKnown(s) && Possible(s, ev)
    requires ClientOk(Step(digest, s, ev)) && AllDelivered(Step(digest, s, ev)) && Step(digest, s, ev).table.opens < IDS
    ensures FreshBorn(Step(digest, s, ev))
  {
    hide Sound, ClientOk, AllDelivered, Mentions, Step, Possible;
    var s' := Step(digest, s, ev);
    StepKeeps(digest, s, ev);
    HandledOnward(digest, s, ev);
    ClientIds(s);
    ClientIds(s');
    forall o | 0 <= o < |s'.table.objs|
      ensures var x := s'.table.objs[o];
              x.born <= |s'.rx.handled| && !Mentions(s'.rx.handled[..x.born], x.sid)
    {
      var x := s'.table.objs[o];
      BornBefore(s', o);
      if o < |s.table.objs| {
        assert GrowsOne(s.table.objs[o], x);
        assert s'.rx.handled[..x.born] == s.rx.handled[..x.born];
      } else {
        assert x.sid == o + 1 && !Mentions(s.rx.handled, x.sid);
        MoreFrames(x.sid, s.rx.handled[..x.born], s.rx.handled);
      }
    }
  }

  // ---- What holds in every joint run ----

  lemma ClientReaches(digest: Text -> Text, s: Session, ev: Event)
    requires ClientReached(digest, s) && Possible(s, ev) && Step(digest, s, ev).table.opens < IDS
    ensures ClientReached(digest, Step(digest, s, ev))
  {
    var cap: nat, engine: Engine.State, order: seq<(Text, Text)>, events: seq<Event> :|
      Run(digest, NewSession(true, cap, engine, order), events) == Some(s) && s.table.opens < IDS;
    hide Step, Possible, NewSession;
    assert (events + [ev])[..|events|] == events;
    assert Run(digest, NewSession(true, cap, engine, order), events + [ev]) == Some(Step(digest, s, ev));
  }

  lemma ServerReaches(digest: Text -> Text, s: Session, ev: Event)
    requires ServerReached(digest, s) && Possible(s, ev)
    ensures ServerReached(digest, Step(digest, s, ev))
  {
    var cap: nat, engine: Engine.State, events: seq<Event> :|
      Run(digest, NewSession(false, cap, engine, []), events) == Some(s);
    hide Step, Possible, NewSession;
    assert (events + [ev])[..|events|] == events;
    assert Run(digest, NewSession(false, cap, engine, []), events + [ev]) == Some(Step(digest, s, ev));
  }

  ghost predicate JointOk(digest: Text -> Text, j: Joint)
  {
    ClientReached(digest, j.client) && ServerReached(digest, j.server) && RepliesOk(j.server) && FreshBorn(j.client)
  }

  lemma LinkedDistinct(digest: Text -> Text, j: Joint)
    requires ClientReached(digest, j.client) && ServerReached(digest, j.server) && Linked(j)
    ensures Distinct(j.server.table.objs)
    ensures SynFirst(j.server.rx.handled) && NonWaste(j.server.rx.handled) <= j.client.channel.frames
  {
    var ops :| Connected(j.client, ops, j.server);
    hide ClientReached, ServerReached, Sound, Tracks, AllDelivered, Reassembled, AllBornBySyn, OutboxOk,
         Connected, SynFirst, NonWaste, BornInOrder, AllAccounted, Distinct, OwnFrames, Winding, Unpadded;
    ClientFacts(digest, j.client);
    ServerFacts(digest, j.server);
    ServerEnds(digest, j.server);
    QueueFacts(j.client);
    WirePrefix(ops, j.client, j.server);
    HandledFrames(j.server.rx.handled, j.client.channel.frames);
    ServerDistinct(j.server);
  }

  /** A stream the server has was opened by the client. */
  lemma ServerNames(client: Session, server: Session, sid: U32)
    requires OutboxOk(client) && AllBornBySyn(server) && Known(server.table.objs, sid)
    requires NonWaste(server.rx.handled) <= client.channel.frames
    ensures 1 <= sid <= |client.table.objs|
  {
    hide OutboxOk, NonWaste, Mentions;
    var o :| 0 <= o < |server.table.objs| && server.table.objs[o].sid == sid;
    assert BornBySyn(server.table.objs[o], server.rx.handled);
    MentionsAt(server.rx.handled, server.table.objs[o].born - 1);
    PaddingUnseen(sid, server.rx.handled);
    MoreFrames(sid, NonWaste(server.rx.handled), client.channel.frames);
    ClientStream(client, sid);
  }

  /** The way back, at any moment: what the client has handled are the server's first frames, and
      they name only streams the client has. */
  lemma LinkedBack(digest: Text -> Text, j: Joint)
    requires ClientReached(digest, j.client) && ServerReached(digest, j.server) && RepliesOk(j.server) && Linked(j)
    ensures NonWaste(j.client.rx.handled) <= j.server.channel.frames && NamesKnown(j.client)
  {
    LinkedDistinct(digest, j);
    var ops :| Connected(j.server, ops, j.client);
    hide ClientReached, ServerReached, Sound, Tracks, AllDelivered, Reassembled, AllBornBySyn, OutboxOk,
         Connected, SynFirst, NonWaste, Distinct, Unpadded, Mentions, AllSent, Linked;
    ClientFacts(digest, j.client);
    ClientBytes(digest, j.client);
    ServerFacts(digest, j.server);
    WirePrefix(ops, j.server, j.client);
    forall sid: U32 | Mentions(j.client.rx.handled, sid)
      ensures 1 <= sid <= |j.client.table.objs|
    {
      PaddingUnseen(sid, j.client.rx.handled);
      MoreFrames(sid, NonWaste(j.client.rx.handled), j.server.channel.frames);
      ServerNames(j.client, j.server, sid);
    }
  }

  lemma ClientBytes(digest: Text -> Text, client: Session)
    requires ClientReached(digest, client)
    ensures Sound(client) && Tracks(client) && AllDelivered(client) && Reassembled(client.rx) && ClientOk(client)
    ensures client.table.opens < IDS
  {
    var cap: nat, engine: Engine.State, order: seq<(Text, Text)>, events: seq<Event> :|
      Run(digest, NewSession(true, cap, engine, order), events) == Some(client) && client.table.opens < IDS;
    InitiallyDelivered(true, cap, engine, order);
    ClientStarts(cap, engine, order);
    hide NewSession, Sound, Tracks, AllDelivered, Reassembled, ClientOk;
    DeliveryRuns(digest, NewSession(true, cap, engine, order), events);
    ClientRuns(digest, NewSession(true, cap, engine, order), events);
  }

  lemma JointClient(digest: Text -> Text, j: Joint, ev: Event)
    requires JointOk(digest, j) && Linked(j) && Possible(j.client, ev) && Step(digest, j.client, ev).table.opens < IDS
    ensures JointOk(digest, j.(client := Step(digest, j.client, ev)))
  {
    hide ClientReached, ServerReached, Linked, RepliesOk, FreshBorn, NamesKnown, NonWaste, Sound, Tracks, AllDelivered,
         Reassembled, ClientOk, Step, Possible;
    LinkedBack(digest, j);
    ClientReaches(digest, j.client, ev);
    ClientBytes(digest, j.client);
    ClientBytes(digest, Step(digest, j.client, ev));
    FreshStep(digest, j.client, ev);
  }

  lemma JointServer(digest: Text -> Text, j: Joint, ev: Event)
    requires JointOk(digest, j) && Possible(j.server, ev) && Linked(j.(server := Step(digest, j.server, ev)))
    ensures JointOk(digest, j.(server := Step(digest, j.server, ev)))
  {
    hide ClientReached, ServerReached, Linked, RepliesOk, FreshBorn, NonWaste, Sound, Tracks, AllDelivered, Reassembled,
         Distinct, SynFirst, BornBySyn, Step, Possible;
    ServerReaches(digest, j.server, ev);
    LinkedDistinct(digest, j.(server := Step(digest, j.server, ev)));
    ServerFacts(digest, j.server);
    RepliesStep(digest, j.server, ev);
  }

  lemma JointStarts(digest: Text -> Text, caps: (nat, nat), client: Engine.State, order: seq<(Text, Text)>, server: Engine.State)
    ensures JointOk(digest, NewJoint(caps, client, order, server))
  {
    var c, s := NewSession(true, caps.0, client, order), NewSession(false, caps.1, server, []);
    assert Run(digest, c, []) == Some(c) && Run(digest, s, []) == Some(s);
    assert s.channel.frames == [];
  }

  lemma {:induction false} JointRuns(digest: Text -> Text, caps: (nat, nat), client: Engine.State, order: seq<(Text, Text)>,
                                     server: Engine.State, events: seq<JointEvent>)
    requires JointRun(digest, NewJoint(caps, client, order, server), events).Some?
    requires JointRun(digest, NewJoint(caps, client, order, server), events).value.client.table.opens < IDS
    ensures JointOk(digest, JointRun(digest, NewJoint(caps, client, order, server), events).value)
    ensures Linked(JointRun(digest, NewJoint(caps, client, order, server), events).value)
  {
    hide Step, Possible, Linked, JointOk, NewJoint, Sound, Grows;
    var init := NewJoint(caps, client, order, server);
    if events == [] {
      JointStarts(digest, caps, client, order, server);
    } else {
      var front, last := events[..|events| - 1], events[|events| - 1];
      var j := JointRun(digest, init, front).value;
      match last
      case AtClient(ev) =>
        OpensOnward(digest, j.client, ev);
        JointRuns(digest, caps, client, order, server, front);
        JointClient(digest, j, ev);
      case AtServer(ev) =>
        JointRuns(digest, caps, client, order, server, front);
        JointServer(digest, j, ev);
    }
  }

  lemma OpensOnward(digest: Text -> Text, s: Session, ev: Event)
    requires Possible(s, ev)
    ensures s.table.opens <= Step(digest, s, ev).table.opens
  {
    hide CallStep, OpenTaskStep, CloseTaskStep, ReceiveStep;
    match ev
    case Api(call) => CallOpens(s, call);
    case RunTask(t) => TaskOpens(s.(tasks := s.tasks - multiset{t}), t);
    case Receive(progress) => HandledOnward(digest, s, ev);
  }

  lemma CallOpens(s: Session, call: Call)
    requires CallPossible(s, call)
    ensures CallStep(s, call).table.opens == s.table.opens
  {
    hide Apply, Enabled;
  }

  lemma TaskOpens(s: Session, t: Task)
    requires TaskInRange(t, |s.table.objs|)
    ensures s.table.opens <= (if IsOpenTask(t) then OpenTaskStep(s, t) else CloseTaskStep(s, t)).table.opens
  {
    hide Apply, Ascii;
  }

  // ---- Each end's own run ----

  function ClientPart(events: seq<JointEvent>): seq<Event>
  {
    if events == [] then []
    else
      var last := events[|events| - 1];
      ClientPart(events[..|events| - 1]) + if last.AtClient? then [last.event] else []
  }

  function ServerPart(events: seq<JointEvent>): seq<Event>
  {
    if events == [] then []
    else
      var last := events[|events| - 1];
      ServerPart(events[..|events| - 1]) + if last.AtServer? then [last.event] else []
  }

  lemma RunSnoc(digest: Text -> Text, init: Session, events: seq<Event>, ev: Event)
    requires Run(digest, init, events).Some? && Possible(Run(digest, init, events).value, ev)
    ensures Run(digest, init, events + [ev]) == Some(Step(digest, Run(digest, init, events).value, ev))
  {
    hide Step, Possible;
    assert (events + [ev])[..|events|] == events;
  }

  /** In a joint run each end runs its own events. */
  lemma {:induction false} EachRuns(digest: Text -> Text, init: Joint, events: seq<JointEvent>)
    requires JointRun(digest, init, events).Some?
    ensures var j := JointRun(digest, init, events).value;
            && Run(digest, init.client, ClientPart(events)) == Some(j.client)
            && Run(digest, init.server, ServerPart(events)) == Some(j.server)
  {
    hide Step, Possible, Linked, Run;
    if events == [] {
      EmptyRun(digest, init.client);
      EmptyRun(digest, init.server);
    } else {
      var front, last := events[..|events| - 1], events[|events| - 1];
      EachRuns(digest, init, front);
      if last.AtClient? {
        RunSnoc(digest, init.client, ClientPart(front), last.event);
        assert ServerPart(front) + [] == ServerPart(front);
      } else {
        RunSnoc(digest, init.server, ServerPart(front), last.event);
        assert ClientPart(front) + [] == ClientPart(front);
      }
    }
  }

  lemma EmptyRun(digest: Text -> Text, s: Session)
    ensures Run(digest, s, []) == Some(s)
  {
  }

  function ClientHistory(cap: nat, client: Engine.State, order: seq<(Text, Text)>, events: seq<JointEvent>): History
  {
    History(cap, client, order, ClientPart(events))
  }

  function ServerHistory(cap: nat, server: Engine.State, events: seq<JointEvent>): History
  {
    History(cap, server, [], ServerPart(events))
  }

  lemma EachRan(digest: Text -> Text, caps: (nat, nat), client: Engine.State, order: seq<(Text, Text)>,
                server: Engine.State, events: seq<JointEvent>)
    requires JointRun(digest, NewJoint(caps, client, order, server), events).Some?
    ensures var j := JointRun(digest, NewJoint(caps, client, order, server), events).value;
            && (j.client.table.opens < IDS ==> Ran(digest, true, ClientHistory(caps.0, client, order, events), j.client))
            && Ran(digest, false, ServerHistory(caps.1, server, events), j.server)
  {
    hide JointRun, Run, NewSession;
    EachRuns(digest, NewJoint(caps, client, order, server), events);
  }

  // ---- The way back ----

  /** Frames that do not name a stream can be left out in front. */
  lemma {:induction false} SilentFront(sid: U32, a: seq<Frame>, b: seq<Frame>)
    requires !Mentions(a, sid)
    ensures DataFor(sid, a + b) == DataFor(sid, b) && EndedFor(sid, a + b) == EndedFor(sid, b)
    ensures FirstEnd(sid, a + b) == FirstEnd(sid, b)
  {
    if b == [] {
      assert a + b == a;
      Silent(sid, a);
    } else {
      var front, f := b[..|b| - 1], Last(b);
      assert a + b == (a + front) + [f] && b == front + [f];
      SilentFront(sid, a, front);
      DataSnoc(sid, a + front, f);
      DataSnoc(sid, front, f);
    }
  }

  /** A client stream and the server stream of its name. */
  ghost predicate PairedBack(x: Stream, handled: seq<Frame>, server: Session, p: nat)
  {
    && p < |server.table.objs| && x.born <= |handled|
    && Payload(x.sid, server.channel.frames) == server.table.objs[p].sent
    && DataFor(x.sid, Seen(x, handled)) <= DataFor(x.sid, server.channel.frames)
    && (EndedFor(x.sid, Seen(x, handled)) ==>
          && EndedFor(x.sid, server.channel.frames)
          && DataFor(x.sid, Seen(x, handled)) == DataFor(x.sid, server.channel.frames)
          && FirstEnd(x.sid, Seen(x, handled)) == FirstEnd(x.sid, server.channel.frames))
    && (NonWaste(handled) == server.channel.frames ==>
          && DataFor(x.sid, Seen(x, handled)) == DataFor(x.sid, server.channel.frames)
          && EndedFor(x.sid, Seen(x, handled)) == EndedFor(x.sid, server.channel.frames))
  }

  lemma PairBack(client: Session, server: Session, o: nat, p: nat)
    requires FreshBorn(client) && RepliesOk(server) && NonWaste(client.rx.handled) <= server.channel.frames
    requires o < |client.table.objs| && p < |server.table.objs| && server.table.objs[p].sid == client.table.objs[o].sid
    ensures PairedBack(client.table.objs[o], client.rx.handled, server, p)
  {
    hide DataFor, EndedFor, FirstEnd, Mentions, Payload, NonWaste, Unpadded, OnlyKnown;
    var x, handled := client.table.objs[o], client.rx.handled;
    assert handled == handled[..x.born] + Seen(x, handled);
    SilentFront(x.sid, handled[..x.born], Seen(x, handled));
    PaddingUnseen(x.sid, handled);
    MoreFrames(x.sid, NonWaste(handled), server.channel.frames);
  }

  /** Client stream `o` and server stream `p` of one identifier at the end of a joint run. */
  ghost predicate Mates(j: Joint, o: nat, p: nat)
  {
    && j.client.table.opens < IDS && o < |j.client.table.objs| && p < |j.server.table.objs|
    && j.server.table.objs[p].sid == j.client.table.objs[o].sid
  }

  /** The way back, always: in every joint run the bytes that reads on a client stream returned are a
      prefix of the bytes written to the server stream of the same identifier. */
  lemma ReadBackIsPrefix(digest: Text -> Text, caps: (nat, nat), client: Engine.State, order: seq<(Text, Text)>,
                         server: Engine.State, events: seq<JointEvent>, o: nat, p: nat)
    requires JointRun(digest, NewJoint(caps, client, order, server), events).Some?
    requires Mates(JointRun(digest, NewJoint(caps, client, order, server), events).value, o, p)
    ensures BytesReadOn(digest, true, ClientHistory(caps.0, client, order, events), o)
         <= BytesWrittenTo(digest, false, ServerHistory(caps.1, server, events), p)
  {
    hide JointRun, NewJoint, Ran, BytesReadOn, BytesWrittenTo, ClientHistory, ServerHistory;
    var j := JointRun(digest, NewJoint(caps, client, order, server), events).value;
    DeliveredBack(digest, caps, client, order, server, events, o, p);
    EachRan(digest, caps, client, order, server, events);
    RanLogged(digest, true, ClientHistory(caps.0, client, order, events), j.client, o);
    RanLogged(digest, false, ServerHistory(caps.1, server, events), j.server, p);
  }

  lemma DeliveredBack(digest: Text -> Text, caps: (nat, nat), client: Engine.State, order: seq<(Text, Text)>,
                         server: Engine.State, events: seq<JointEvent>, o: nat, p: nat)
    requires JointRun(digest, NewJoint(caps, client, order, server), events).Some?
    requires var j := JointRun(digest, NewJoint(caps, client, order, server), events).value;
             Mates(j, o, p)
    ensures var j := JointRun(digest, NewJoint(caps, client, order, server), events).value;
            j.client.table.objs[o].pipe.delivered <= j.server.table.objs[p].sent
  {
    hide JointRun, NewJoint, Linked, ClientReached, ServerReached, RepliesOk, FreshBorn, NamesKnown, NonWaste, Sound,
         Tracks, AllDelivered, Reassembled, ClientOk, StreamOk, Delivered, DataFor, EndedFor, Payload;
    var j := JointRun(digest, NewJoint(caps, client, order, server), events).value;
    var x := j.client.table.objs[o];
    JointRuns(digest, caps, client, order, server, events);
    LinkedBack(digest, j);
    ClientBytes(digest, j.client);
    PairBack(j.client, j.server, o, p);
    ClientStreamFacts(j.client, o);
    PipeIsPrefix(x, j.client.rx, o, j.client.table.Attached(o));
    DataIsPayload(x.sid, j.server.channel.frames);
  }

  lemma ClientStreamFacts(client: Session, o: nat)
    requires Sound(client) && AllDelivered(client) && o < |client.table.objs|
    ensures StreamOk(client.table.objs[o])
    ensures Delivered(client.table.objs[o], o, client.table.Attached(o), client.rx)
  {
    hide StreamOk, Delivered, TasksOk, AtOk, MapOk;
  }

  /** The way back, complete: when all the server queued has arrived, an open client stream holds
      exactly what was written to its counterpart. */
  lemma ReadBackIsComplete(digest: Text -> Text, caps: (nat, nat), client: Engine.State, order: seq<(Text, Text)>,
                           server: Engine.State, events: seq<JointEvent>, ops: seq<WriterRuns.Op>, o: nat, p: nat)
    requires JointRun(digest, NewJoint(caps, client, order, server), events).Some?
    requires var j := JointRun(digest, NewJoint(caps, client, order, server), events).value;
             && Mates(j, o, p) && j.client.table.Attached(o) && !j.client.table.objs[o].Closed()
             && Connected(j.server, ops, j.client)
             && Settled(j.server, ops, j.client)
    ensures var pipe := JointRun(digest, NewJoint(caps, client, order, server), events).value.client.table.objs[o].pipe;
            BytesReadOn(digest, true, ClientHistory(caps.0, client, order, events), o) + (pipe.buffer + BytesOf(pipe.Pending()))
            == BytesWrittenTo(digest, false, ServerHistory(caps.1, server, events), p)
  {
    hide JointRun, NewJoint, Ran, BytesReadOn, BytesWrittenTo, ClientHistory, ServerHistory, Connected, Settled, BytesOf;
    var j := JointRun(digest, NewJoint(caps, client, order, server), events).value;
    HeldBack(digest, caps, client, order, server, events, ops, o, p);
    EachRan(digest, caps, client, order, server, events);
    RanLogged(digest, true, ClientHistory(caps.0, client, order, events), j.client, o);
    RanLogged(digest, false, ServerHistory(caps.1, server, events), j.server, p);
  }

  lemma HeldBack(digest: Text -> Text, caps: (nat, nat), client: Engine.State, order: seq<(Text, Text)>,
                           server: Engine.State, events: seq<JointEvent>, ops: seq<WriterRuns.Op>, o: nat, p: nat)
    requires JointRun(digest, NewJoint(caps, client, order, server), events).Some?
    requires var j := JointRun(digest, NewJoint(caps, client, order, server), events).value;
             && Mates(j, o, p) && j.client.table.Attached(o) && !j.client.table.objs[o].Closed()
             && Connected(j.server, ops, j.client)
             && Settled(j.server, ops, j.client)
    ensures var j := JointRun(digest, NewJoint(caps, client, order, server), events).value;
            var pipe := j.client.table.objs[o].pipe;
            pipe.delivered + (pipe.buffer + BytesOf(pipe.Pending())) == j.server.table.objs[p].sent
  {
    hide JointRun, NewJoint, Linked, ClientReached, ServerReached, FreshBorn, NamesKnown, NonWaste, Sound,
         Tracks, AllDelivered, Reassembled, ClientOk, StreamOk, Delivered, DataFor, EndedFor, Payload, Connected, Decode,
         Unpadded, OnlyKnown, AllSent, BytesOf;
    var j := JointRun(digest, NewJoint(caps, client, order, server), events).value;
    var x := j.client.table.objs[o];
    JointRuns(digest, caps, client, order, server, events);
    LinkedBack(digest, j);
    ClientBytes(digest, j.client);
    PairBack(j.client, j.server, o, p);
    WirePrefix(ops, j.server, j.client);
    ClientStreamFacts(j.client, o);
    RestingStream(x, j.client.rx, o);
    DataIsPayload(x.sid, j.server.channel.frames);
  }

  lemma ClientEnds(digest: Text -> Text, client: Session)
    requires ClientReached(digest, client)
    ensures Winding(client) && AllAccounted(client)
  {
    var cap: nat, engine: Engine.State, order: seq<(Text, Text)>, events: seq<Event> :|
      Run(digest, NewSession(true, cap, engine, order), events) == Some(client) && client.table.opens < IDS;
    var init := NewSession(true, cap, engine, order);
    InitiallyDelivered(true, cap, engine, order);
    assert AllAccounted(init) && Winding(init);
    hide NewSession, Sound, Tracks, AllDelivered, Reassembled, AllAccounted, NoEviction, Winding;
    WindingRuns(digest, init, events);
    IdsLoseNobody(digest, cap, engine, order, events);
    RunAccounts(digest, init, events);
  }

  /** The way back, end of file: the client's stream is closed, what was read is a prefix of what was
      written, and it depends on who closed it: the server ended it and everything queued before that
      has been read, or the session is terminated, or the reader's own side closed it. */
  lemma ReadBackEofCases(digest: Text -> Text, caps: (nat, nat), client: Engine.State, order: seq<(Text, Text)>,
                         server: Engine.State, events: seq<JointEvent>, o: nat, p: nat, step: PipeStep)
    requires JointRun(digest, NewJoint(caps, client, order, server), events).Some?
    requires var j := JointRun(digest, NewJoint(caps, client, order, server), events).value;
             Mates(j, o, p) && ReportsEof(j.client, o, step)
    ensures var j := JointRun(digest, NewJoint(caps, client, order, server), events).value;
            var x := j.client.table.objs[o];
            var delivered := Apply(x.pipe, step).delivered;
            && x.Closed() && delivered <= j.server.table.objs[p].sent
            && (x.closedBy == Some(Peer) ==>
                  && EndedFor(x.sid, j.server.channel.frames)
                  && delivered == DataFor(x.sid, j.server.channel.frames))
            && (x.closedBy == Some(SessionEnd) ==> j.client.Terminated())
  {
    hide JointRun, NewJoint, Linked, ClientReached, ServerReached, RepliesOk, FreshBorn, NamesKnown, NonWaste, Sound,
         Tracks, AllDelivered, Reassembled, ClientOk, StreamOk, Delivered, DataFor, EndedFor, Payload, Result, RoomOf,
         Enabled, Apply, AllAccounted, Winding;
    var j := JointRun(digest, NewJoint(caps, client, order, server), events).value;
    var x := j.client.table.objs[o];
    JointRuns(digest, caps, client, order, server, events);
    LinkedBack(digest, j);
    ClientBytes(digest, j.client);
    ClientEnds(digest, j.client);
    PairBack(j.client, j.server, o, p);
    ClientStreamFacts(j.client, o);
    EofOfStream(x, j.client.rx, o, j.client.table.Attached(o), step);
    DataIsPayload(x.sid, j.server.channel.frames);
    WindingOne(j.client, o);
  }

  /** So in a session that is not terminated, end of file on a stream the reader's side has not closed
      means that the server ended it, with everything queued before that read. */
  lemma ReadBackEof(digest: Text -> Text, caps: (nat, nat), client: Engine.State, order: seq<(Text, Text)>,
                    server: Engine.State, events: seq<JointEvent>, o: nat, p: nat, step: PipeStep)
    requires JointRun(digest, NewJoint(caps, client, order, server), events).Some?
    requires var j := JointRun(digest, NewJoint(caps, client, order, server), events).value;
             && Mates(j, o, p) && ReportsEof(j.client, o, step)
             && !j.client.Terminated() && j.client.table.objs[o].closedBy != Some(Local)
    ensures var j := JointRun(digest, NewJoint(caps, client, order, server), events).value;
            var x := j.client.table.objs[o];
            && EndedFor(x.sid, j.server.channel.frames)
            && Apply(x.pipe, step).delivered == DataFor(x.sid, j.server.channel.frames)
  {
    hide JointRun, NewJoint, Mates, DataFor, EndedFor, Result, RoomOf, Enabled, Apply;
    var j := JointRun(digest, NewJoint(caps, client, order, server), events).value;
    ReadBackEofCases(digest, caps, client, order, server, events, o, p, step);
    assert j.client.table.objs[o].closedBy.value.Peer?;
  }

  /** The way back, the end: once everything the server queued has arrived and its end of the stream
      was among it, the client stream is closed or its close is pending; and if the peer's close came
      first, its reader gets exactly what was queued before the end, and then the end, with the error
      of a refusal if that is what ended the stream. */
  lemma EndBackMeansEof(digest: Text -> Text, caps: (nat, nat), client: Engine.State, order: seq<(Text, Text)>,
                        server: Engine.State, events: seq<JointEvent>, ops: seq<WriterRuns.Op>, o: nat, p: nat)
    requires JointRun(digest, NewJoint(caps, client, order, server), events).Some?
    requires var j := JointRun(digest, NewJoint(caps, client, order, server), events).value;
             && Mates(j, o, p) && EndedFor(j.client.table.objs[o].sid, j.server.channel.frames)
             && Connected(j.server, ops, j.client) && Settled(j.server, ops, j.client)
    ensures var j := JointRun(digest, NewJoint(caps, client, order, server), events).value;
            var x, frames := j.client.table.objs[o], j.server.channel.frames;
            && !Open(j.client, o)
            && (x.closedBy == Some(Peer) ==> EndsWith(x.pipe, DataFor(x.sid, frames), FirstEnd(x.sid, frames)))
  {
    hide JointRun, NewJoint, Linked, ClientReached, ServerReached, FreshBorn, NamesKnown, NonWaste, Sound,
         Tracks, AllDelivered, Reassembled, ClientOk, StreamOk, Delivered, DataFor, EndedFor, Payload, Connected, Decode,
         Unpadded, OnlyKnown, AllSent, BytesOf, AllAccounted, Winding, Closing, FirstEnd, EndsWith;
    var j := JointRun(digest, NewJoint(caps, client, order, server), events).value;
    var x := j.client.table.objs[o];
    JointRuns(digest, caps, client, order, server, events);
    LinkedBack(digest, j);
    ClientBytes(digest, j.client);
    ClientEnds(digest, j.client);
    PairBack(j.client, j.server, o, p);
    WirePrefix(ops, j.server, j.client);
    ClientStreamFacts(j.client, o);
    EndedDetached(x, j.client.rx, o, j.client.table.Attached(o));
    AccountedOne(j.client, o);
    if x.closedBy == Some(Peer) {
      ClosedByPeer(x, j.client.rx, o, j.client.table.Attached(o));
    }
  }

  // ---- Refusals ----

  /** The first of the answers that says why the stream was refused. */
  function FirstReason(answers: seq<Text>): Option<Text>
  {
    if answers == [] then None
    else
      match FirstReason(answers[..|answers| - 1])
      case Some(reason) => Some(reason)
      case None => if answers[|answers| - 1] != [] then Some(answers[|answers| - 1]) else None
  }

  lemma FirstReasonSnoc(answers: seq<Text>, answer: Text)
    ensures FirstReason(answers + [answer])
         == if FirstReason(answers).Some? then FirstReason(answers) else if answer != [] then Some(answer) else None
  {
    assert (answers + [answer])[..|answers|] == answers;
  }

  /** What the reader of a refused stream is told. */
  function Refusal(reason: Text): Error { Ascii("remote: ") + reason }

  /** An end with an error is the first refusal; and a refusal ends the stream with its error unless a
      FIN came first. */
  lemma {:induction false} RefusalEnds(sid: U32, fs: seq<Frame>)
    ensures var reason := FirstReason(SynAcks(sid, fs));
            && (reason.Some? ==> EndedFor(sid, fs))
            && (FirstEnd(sid, fs).Some? ==> reason.Some? && FirstEnd(sid, fs) == Some(Refusal(reason.value)))
            && (EndedFor(sid, fs) && Fins(sid, fs) == 0 ==> FirstEnd(sid, fs).Some?)
            && (!EndedFor(sid, fs) ==> FirstEnd(sid, fs).None?)
  {
    hide Ascii;
    if fs != [] {
      var front, f := fs[..|fs| - 1], Last(fs);
      assert fs == front + [f];
      RefusalEnds(sid, front);
      DataSnoc(sid, front, f);
      SynAcksSnoc(sid, front, f);
      Snoc(front, f, sid);
      if f.cmd.SynAck? && f.sid == sid {
        FirstReasonSnoc(SynAcks(sid, front), f.data);
      } else {
        assert SynAcks(sid, front) + [] == SynAcks(sid, front);
      }
    }
  }

  /** The answers a server gave to the opening of stream `sid` in a joint run. */
  function Answers(digest: Text -> Text, h: History, sid: U32): seq<Text>
  {
    AnswerLog(digest, Start(false, h), h.events, sid)
  }

  /** What the reads on stream `o` of a client returned in a joint run, as far as they failed. */
  function ReadErrors(digest: Text -> Text, h: History, o: nat): seq<Error>
  {
    Errors(ReadLog(digest, Start(true, h), h.events, o))
  }

  lemma AnswersOnQueue(digest: Text -> Text, h: History, server: Session, sid: U32)
    requires Ran(digest, false, h, server)
    ensures SynAcks(sid, server.channel.frames) == Answers(digest, h, sid)
  {
    InitiallyDelivered(false, h.cap, h.engine, []);
    hide Sound, Tracks, AllDelivered, Reassembled, Run;
    AnswersQueued(digest, Start(false, h), h.events, sid);
  }

  lemma ErrorsOnStream(digest: Text -> Text, h: History, client: Session, o: nat)
    requires Ran(digest, true, h, client) && o < |client.table.objs| && !client.table.objs[o].pipe.closedLocally
    ensures var p := client.table.objs[o].pipe;
            ReadErrors(digest, h, o) == if p.closed then Told(p.endError) else []
  {
    InitiallySound(true, h.cap, h.engine, h.order);
    assert Start(true, h).table.objs == [];
    hide Sound, Run, NewSession, Start;
    LogsAgree(digest, Start(true, h), h.events, o);
  }

  /** The server refused the stream before it closed it. */
  ghost predicate RefusedFirst(sid: U32, fs: seq<Frame>)
  {
    exists k :: 0 <= k < |fs| && fs[k].cmd.SynAck? && fs[k].sid == sid && fs[k].data != [] && Fins(sid, fs[..k]) == 0
  }

  lemma RefusedFirstEnds(sid: U32, fs: seq<Frame>)
    requires RefusedFirst(sid, fs)
    ensures EndedFor(sid, fs) && FirstEnd(sid, fs).Some?
  {
    hide EndedFor, FirstEnd, Fins, DataFor, SynAcks;
    var k :| 0 <= k < |fs| && fs[k].cmd.SynAck? && fs[k].sid == sid && fs[k].data != [] && Fins(sid, fs[..k]) == 0;
    var front := fs[..k + 1];
    assert front == fs[..k] + [fs[k]];
    Snoc(fs[..k], fs[k], sid);
    DataSnoc(sid, fs[..k], fs[k]);
    RefusalEnds(sid, front);
    MoreFrames(sid, front, fs);
  }

  /** A refusal is read: once everything the server queued has arrived, if the server refused the
      stream before closing it, the client stream is closed or its close is pending; and if the peer's
      close came first, its reader gets exactly the data queued before the refusal and then an error
      made of the reason the server gave first, once. */
  lemma RefusalIsRead(digest: Text -> Text, caps: (nat, nat), client: Engine.State, order: seq<(Text, Text)>,
                      server: Engine.State, events: seq<JointEvent>, ops: seq<WriterRuns.Op>, o: nat, p: nat)
    requires JointRun(digest, NewJoint(caps, client, order, server), events).Some?
    requires var j := JointRun(digest, NewJoint(caps, client, order, server), events).value;
             && Mates(j, o, p) && Connected(j.server, ops, j.client) && Settled(j.server, ops, j.client)
             && RefusedFirst(j.client.table.objs[o].sid, j.server.channel.frames)
    ensures var j := JointRun(digest, NewJoint(caps, client, order, server), events).value;
            var x := j.client.table.objs[o];
            var reason := FirstReason(Answers(digest, ServerHistory(caps.1, server, events), x.sid));
            && !Open(j.client, o) && reason.Some?
            && (x.closedBy == Some(Peer) ==>
                  var error := Refusal(reason.value);
                  && EndsWith(x.pipe, DataFor(x.sid, j.server.channel.frames), Some(error))
                  && ReadErrors(digest, ClientHistory(caps.0, client, order, events), o)
                     == if x.pipe.closed then [error] else [])
  {
    hide JointRun, NewJoint, Connected, Settled, Ran, Answers, ReadErrors, ClientHistory, ServerHistory, DataFor, EndedFor,
         FirstEnd, RefusedFirst, FirstReason, Refusal, SynAcks, Closing;
    var j := JointRun(digest, NewJoint(caps, client, order, server), events).value;
    var x := j.client.table.objs[o];
    EachRan(digest, caps, client, order, server, events);
    AnswersOnQueue(digest, ServerHistory(caps.1, server, events), j.server, x.sid);
    RefusedFirstEnds(x.sid, j.server.channel.frames);
    RefusalEnds(x.sid, j.server.channel.frames);
    EndBackMeansEof(digest, caps, client, order, server, events, ops, o, p);
    if x.closedBy == Some(Peer) {
      NotLocal(digest, ClientHistory(caps.0, client, order, events), j.client, o);
      ErrorsOnStream(digest, ClientHistory(caps.0, client, order, events), j.client, o);
    }
  }

  lemma NotLocal(digest: Text -> Text, h: History, client: Session, o: nat)
    requires Ran(digest, true, h, client) && o < |client.table.objs| && client.table.objs[o].closedBy == Some(Peer)
    ensures !client.table.objs[o].pipe.closedLocally
  {
    hide Ran, ClientReached, Sound, Tracks, AllDelivered, Reassembled, ClientOk, Delivered, Inv;
    RanReached(digest, true, h, client);
    ClientBytes(digest, client);
    ClientStreamFacts(client, o);
  }

  /** An error means a refusal: in every joint run, if a read on a client stream that neither its own
      side nor the session has ended returned an error, the server refused the stream, and the error is
      made of the reason it gave first. */
  lemma ErrorMeansRefusal(digest: Text -> Text, caps: (nat, nat), client: Engine.State, order: seq<(Text, Text)>,
                          server: Engine.State, events: seq<JointEvent>, o: nat, p: nat)
    requires JointRun(digest, NewJoint(caps, client, order, server), events).Some?
    requires var j := JointRun(digest, NewJoint(caps, client, order, server), events).value;
             && Mates(j, o, p)
             && j.client.table.objs[o].closedBy != Some(Local) && j.client.table.objs[o].closedBy != Some(SessionEnd)
             && ReadErrors(digest, ClientHistory(caps.0, client, order, events), o) != []
    ensures var j := JointRun(digest, NewJoint(caps, client, order, server), events).value;
            var reason := FirstReason(Answers(digest, ServerHistory(caps.1, server, events), j.client.table.objs[o].sid));
            && reason.Some?
            && ReadErrors(digest, ClientHistory(caps.0, client, order, events), o) == [Refusal(reason.value)]
  {
    hide JointRun, NewJoint, Linked, Ran, Answers, ReadErrors, ClientHistory, ServerHistory, DataFor, EndedFor, FirstEnd,
         FirstReason, Refusal, SynAcks, ClientReached, ServerReached, RepliesOk, FreshBorn, NamesKnown, NonWaste, Sound,
         Tracks, AllDelivered, Reassembled, ClientOk, Payload, Inv;
    var j := JointRun(digest, NewJoint(caps, client, order, server), events).value;
    var x := j.client.table.objs[o];
    JointRuns(digest, caps, client, order, server, events);
    EachRan(digest, caps, client, order, server, events);
    LinkedBack(digest, j);
    ClientBytes(digest, j.client);
    ClientStreamFacts(j.client, o);
    PairBack(j.client, j.server, o, p);
    ErrorsOnStream(digest, ClientHistory(caps.0, client, order, events), j.client, o);
    EndOfClosed(x, o, j.client.table.Attached(o), j.client.rx);
    AnswersOnQueue(digest, ServerHistory(caps.1, server, events), j.server, x.sid);
    RefusalEnds(x.sid, j.server.channel.frames);
  }

  lemma EndOfClosed(x: Stream, o: nat, attached: bool, rx: Receiver)
    requires StreamOk(x) && Delivered(x, o, attached, rx) && x.pipe.closed
    requires x.closedBy != Some(Local) && x.closedBy != Some(SessionEnd)
    ensures EndedFor(x.sid, Seen(x, rx.handled)) && x.pipe.endError == FirstEnd(x.sid, Seen(x, rx.handled))
  {
    hide DataFor, EndedFor, FirstEnd, InFlight, CloseNext;
    assert x.closedBy.value.Peer?;
  }
}
