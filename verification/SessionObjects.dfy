/** The session object: src/proxy/session/inner.rs. Each method is one lock section or atomic
    operation of the source, proved to be the machine's step, and `Terminate` and `PushStreamData`
    are whole calls. Streams are named by their position in `objs`. */
module SessionObjects {
  import opened Bytes
  import opened Options
  import opened Texts
  import opened Engine
  import opened Pipes
  import opened Sessions
  import opened SessionSafety

  /** A stream that `close_from_session` has closed. */
  function SessionEnded(x: Stream): Stream
  {
    if x.Closed() then x else x.(closedBy := Some(SessionEnd), pipe := Apply(x.pipe, Finish(None)))
  }

  /** Exactly the streams in `which` have been ended. */
  ghost predicate EndedOnly(before: seq<Stream>, after: seq<Stream>, which: set<nat>)
  {
    |after| == |before| && forall o :: 0 <= o < |before| ==> after[o] == if o in which then SessionEnded(before[o]) else before[o]
  }

  lemma EndsOneMore(before: seq<Stream>, after: seq<Stream>, which: set<nat>, o: nat)
    requires EndedOnly(before, after, which) && o < |before|
    ensures EndedOnly(before, after[o := SessionEnded(after[o])], which + {o})
  {
  }

  class SessionInner {
    const isClient: bool
    const cap: nat
    var streams: map<U32, nat>
    var objs: seq<Stream>
    var idle: bool
    var nextId: U32
    var closed: bool
    var channel: Channel
    var rx: Receiver
    ghost var opens: nat
    ghost var drained: bool
    ghost var tasks: multiset<Task>

    ghost function View(): Session
      reads this
    {
      Session(isClient, cap, Table(streams, objs, idle, nextId, opens, closed, drained), channel, rx, tasks)
    }

    constructor (isClient: bool, cap: nat, engine: Engine.State, order: seq<(Text, Text)>)
      ensures View() == NewSession(isClient, cap, engine, order) && Sound(View())
    {
      this.isClient, this.cap := isClient, cap;
      streams, objs, idle, nextId, closed := map[], [], true, 0, false;
      channel := Channel(Engine.Sent(OnSessionStart(isClient, order)), [], false);
      rx := Receiver(engine, Next, [], [], [], []);
      opens, drained, tasks := 0, false, multiset{};
      new;
      InitiallySound(isClient, cap, engine, order);
    }

    /** A new stream goes into the map, and the session is not idle. */
    method Insert(sid: U32, handed: bool)
      modifies this
      ensures View() == old(View()).(table := old(View()).table.Insert(sid, rx.Born(), handed))
    {
      streams := streams[sid := |objs|];
      objs := objs + [Stream(sid, None, NewPipe(), rx.Born(), [], handed)];
      idle := false;
    }

    /** The lock section of `open_stream`: the new stream, or nothing when the session is closed, the
        cap is reached or the identifiers are used up. */
    method OpenSection() returns (added: Option<nat>)
      requires Sound(View())
      modifies this
      ensures View() == OpenTaskStep(old(View()), OpenLock) && Sound(View())
      ensures added == if |objs| == |old(objs)| then None else Some(|old(objs)|)
      ensures added.Some? ==> objs[added.value].sid == nextId && nextId in streams && streams[nextId] == added.value
    {
      OpenLockKeeps(View());
      hide Sound, Grows;
      ghost var before := View();
      if closed || |streams| >= cap {
        return None;
      }
      nextId, opens := (nextId + 1) % 0x1_0000_0000, opens + 1;
      if nextId == 0 {
        return None;
      }
      added := Some(|objs|);
      tasks := tasks + multiset{SendSyn(|objs|)};
      Insert(nextId, false);
      assert View() == OpenTaskStep(before, OpenLock);
    }

    /** The lock section of `remove_stream` and of `remove_from_session`. */
    method RemoveSection(sid: U32) returns (removed: Option<nat>, isIdle: bool)
      requires Sound(View())
      modifies this
      ensures View() == old(View()).Remove(sid) && Sound(View())
      ensures removed == if sid in old(streams) then Some(old(streams)[sid]) else None
      ensures isIdle <==> streams == map[]
    {
      RemoveKeeps(View(), sid);
      hide Sound;
      removed := if sid in streams then Some(streams[sid]) else None;
      streams := streams - {sid};
      isIdle := streams == map[];
      tasks := tasks + if isIdle then multiset{NotifyIdle} else multiset{};
    }

    /** `mark_closed`: the compare-and-set that decides which close wins. */
    method MarkClosed(o: nat, cause: Cause) returns (won: bool)
      requires o < |objs|
      modifies this
      ensures View() == old(View()).MarkClosed(o, cause)
      ensures won <==> !old(objs)[o].Closed()
    {
      won := !objs[o].Closed();
      if won {
        objs := objs[o := objs[o].(closedBy := Some(cause))];
      }
    }

    /** The lock section of `create_incoming_stream`. */
    method CreateSection()
      requires Sound(View()) && rx.at.Creating?
      modifies this
      ensures View() == LifeStep(old(View()), old(rx).at) && Sound(View())
    {
      LifeKeeps(View(), rx.at);
      hide Sound;
      var sid := rx.at.sid;
      if sid !in streams {
        Insert(sid, true);
      }
      rx := rx.(at := Next);
    }

    /** `close_from_session` on one stream. */
    method CloseFromSession(o: nat)
      requires o < |objs|
      modifies `objs
      ensures objs == old(objs)[o := SessionEnded(old(objs)[o])]
    {
      if !objs[o].Closed() {
        objs := objs[o := objs[o].(closedBy := Some(SessionEnd))];
        objs := objs[o := objs[o].(pipe := Apply(objs[o].pipe, Finish(None)))];
      }
    }

    /** A whole `terminate`: the first call empties the map, raises the idle flag and ends exactly the
        streams that were in the map; later calls do nothing. */
    method Terminate() returns (first: bool)
      requires MapOk(streams, objs)
      modifies this
      ensures first == !old(closed) && closed
      ensures !first ==> View() == old(View())
      ensures first ==> streams == map[] && idle && EndedOnly(old(objs), objs, old(streams).Values)
      ensures first ==> View() == old(View()).(table := Table(map[], objs, true, nextId, opens, true, true))
      ensures first ==> forall sid :: sid in old(streams) ==> objs[old(streams)[sid]].Closed()
    {
      first := !closed;
      if !first {
        return;
      }
      hide Apply;
      closed := true;
      var found := streams.Values;
      streams, idle, drained := map[], true, true;
      var rest := found;
      assert found - rest == {};
      while rest != {}
        invariant rest <= found
        invariant View() == old(View()).(table := Table(map[], objs, true, nextId, opens, true, true))
        invariant EndedOnly(old(objs), objs, found - rest)
        decreases rest
      {
        var o :| o in rest;
        assert o < |objs|;
        EndsOneMore(old(objs), objs, found - rest, o);
        CloseFromSession(o);
        assert found - rest + {o} == found - (rest - {o});
        rest := rest - {o};
      }
      assert found - rest == found;
    }

    /** A whole `push_stream_data` without interference: data goes to the open stream of that
        identifier and nowhere else, and never fails the session. */
    method PushStreamData(sid: U32, data: seq<Byte>) returns (ok: bool)
      requires Sound(View())
      modifies `objs
      ensures ok
      ensures sid !in streams ==> objs == old(objs)
      ensures sid in streams ==>
                var o := streams[sid];
                && o < |old(objs)|
                && objs == if old(objs)[o].Closed() then old(objs)
                           else old(objs)[o := old(objs)[o].(pipe := Apply(old(objs)[o].pipe, Write(data)))]
      ensures sid in streams && !old(objs)[streams[sid]].Closed() ==>
                objs[streams[sid]].pipe.accepted == old(objs)[streams[sid]].pipe.accepted + data
    {
      ok := true;
      if sid in streams {
        assert MapOk(streams, objs);
        var o := streams[sid];
        ClosedPipeClosedStream(View(), o);
        hide Sound;
        if !objs[o].Closed() {
          var accepted := Accepts(objs[o].pipe);
          objs := objs[o := objs[o].(pipe := Apply(objs[o].pipe, Write(data)))];
          var isClosed := objs[o].Closed();
          ok := accepted || isClosed;
        }
      }
    }
  }
}
